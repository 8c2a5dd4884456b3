/** Reading and printing UUIDs: uuid::is_valid_uuid, uuid::from_string and to_string of common/uuid.h. */
module UuidText {
  import opened Bytes

  // ----- Hexadecimal characters

  predicate IsHex(ch: char) {
    '0' <= ch <= '9' || 'a' <= ch <= 'f' || 'A' <= ch <= 'F'
  }

  function HexToChar(ch: char): (v: Octet)
    ensures v < 16
  {
    if '0' <= ch <= '9' then ch as int - '0' as int
    else if 'a' <= ch <= 'f' then 10 + (ch as int - 'a' as int)
    else if 'A' <= ch <= 'F' then 10 + (ch as int - 'A' as int)
    else 0
  }

  const ENCODER := "0123456789abcdef"

  function Lower(ch: char): char
    requires IsHex(ch)
  {
    if 'A' <= ch <= 'F' then (ch as int + 32) as char else ch
  }

  lemma EncoderInverts(v: nat, ch: char)
    requires v < 16
    ensures IsHex(ENCODER[v]) && HexToChar(ENCODER[v]) == v && ENCODER[v] != '-'
    ensures Lower(ENCODER[v]) == ENCODER[v]
    ensures IsHex(ch) ==> ENCODER[HexToChar(ch)] == Lower(ch)
  {
  }

  // ----- Which strings are UUIDs, and which UUID they are

  /** A string that opens a brace must close it. */
  predicate Matched(str: string) {
    str != "" && (str[0] == '{' ==> str[|str| - 1] == '}')
  }

  function Inner(str: string): string
    requires Matched(str)
  {
    if str[0] == '{' then str[1..|str| - 1] else str
  }

  function Digits(s: string): string {
    if s == "" then ""
    else if s[|s| - 1] == '-' then Digits(s[..|s| - 1])
    else Digits(s[..|s| - 1]) + [s[|s| - 1]]
  }

  predicate AllHex(s: string) {
    forall k | 0 <= k < |s| :: IsHex(s[k])
  }

  predicate Accepted(str: string) {
    Matched(str) && |Digits(Inner(str))| == 32 && AllHex(Digits(Inner(str)))
  }

  function Pair(high: char, low: char): Octet {
    HexToChar(high) * 16 + HexToChar(low)
  }

  function Packed(digits: string): (octets: Octets)
    ensures |octets| == |digits| / 2
  {
    seq(|digits| / 2, k requires 0 <= k < |digits| / 2 => Pair(digits[2 * k], digits[2 * k + 1]))
  }

  function Parse(str: string): Option<Id> {
    if Accepted(str) then Some(Packed(Digits(Inner(str)))) else None
  }

  lemma PackedAt(digits: string, j: nat)
    requires j < |digits| / 2
    ensures Packed(digits)[j] == Pair(digits[2 * j], digits[2 * j + 1])
  {
  }

  // ----- The printed form: section 3 of RFC 4122

  function HexOf(id: Id): (digits: string)
    ensures |digits| == 32
  {
    seq(32, k requires 0 <= k < 32 => ENCODER[if k % 2 == 0 then id[k / 2] / 16 else id[k / 2] % 16])
  }

  lemma HexOfAt(id: Id, j: nat)
    requires j < 16
    ensures HexOf(id)[2 * j] == ENCODER[id[j] / 16] && HexOf(id)[2 * j + 1] == ENCODER[id[j] % 16]
  {
  }

  function Grouped(digits: string): (text: string)
    requires |digits| == 32
    ensures |text| == 36
  {
    digits[..8] + "-" + digits[8..12] + "-" + digits[12..16] + "-" + digits[16..20] + "-" + digits[20..]
  }

  function Canonical(id: Id): string {
    Grouped(HexOf(id))
  }

  predicate HyphenAt(i: nat) {
    i == 8 || i == 13 || i == 18 || i == 23
  }

  function HyphensBefore(i: nat): nat {
    if i <= 8 then 0 else if i <= 13 then 1 else if i <= 18 then 2 else if i <= 23 then 3 else 4
  }

  lemma GroupedAt(digits: string, i: nat)
    requires |digits| == 32 && i < 36
    ensures Grouped(digits)[i] == if HyphenAt(i) then '-' else digits[i - HyphensBefore(i)]
  {
  }

  // ----- Scanning a string

  /** The first n characters between the braces have been read; seen are the digits among them. */
  ghost predicate Scanned(str: string, n: int, seen: string) {
    Matched(str) && 0 <= n <= |Inner(str)| && seen == Digits(Inner(str)[..n]) && AllHex(seen)
  }

  lemma OnlyMatchedAreAccepted(str: string)
    ensures Accepted(str) ==> Matched(str)
  {
  }

  lemma ScanStarts(str: string)
    requires Matched(str)
    ensures Scanned(str, 0, "") && |Inner(str)| == if str[0] == '{' then |str| - 2 else |str|
  {
    assert Inner(str)[..0] == "";
  }

  lemma ScanGoesOn(str: string, n: int, seen: string)
    requires Scanned(str, n, seen) && n < |Inner(str)|
    ensures var ch := str[if str[0] == '{' then n + 1 else n];
            if ch == '-' then Scanned(str, n + 1, seen)
            else if IsHex(ch) && |seen| < 32 then Scanned(str, n + 1, seen + [ch])
            else !Accepted(str)
  {
    hide IsHex, Digits;
    DigitsStep(Inner(str), n);
    assert (seen + [Inner(str)[n]])[|seen|] == Inner(str)[n];
  }

  lemma ScanEnds(str: string, seen: string)
    requires Matched(str) && Scanned(str, |Inner(str)|, seen)
    ensures Accepted(str) <==> |seen| == 32
    ensures Accepted(str) ==> Parse(str) == Some(Packed(seen))
  {
    assert Inner(str)[..|Inner(str)|] == Inner(str);
  }

  // ----- The procedures

  method IsValidUuid(str: string) returns (valid: bool)
    ensures valid <==> Accepted(str)
  {
    hide Digits, Inner, IsHex, Accepted, Scanned;
    OnlyMatchedAreAccepted(str);
    var firstDigit, hasBraces, index := true, 0, 0;
    if str == "" {
      return false;
    }
    if str[0] == '{' {
      hasBraces := 1;
    }
    if hasBraces == 1 && str[|str| - 1] != '}' {
      return false;
    }
    ghost var seen := "";
    ScanStarts(str);
    for i := hasBraces to |str| - hasBraces
      invariant Scanned(str, i - hasBraces, seen)
      invariant index <= 16 && |seen| == 2 * index + if firstDigit then 0 else 1
      invariant !firstDigit ==> index < 16
    {
      ScanGoesOn(str, i - hasBraces, seen);
      if str[i] == '-' {
        continue;
      }
      if index >= 16 || !IsHex(str[i]) {
        return false;
      }
      seen := seen + [str[i]];
      if firstDigit {
        firstDigit := false;
      } else {
        index := index + 1;
        firstDigit := true;
      }
    }
    ScanEnds(str, seen);
    return index >= 16;
  }

  /** The octets hold the digits seen so far, a last odd one in the high half. */
  predicate Filled(data: seq<Octet>, seen: string) {
    && |data| == 16 && |seen| <= 32
    && (forall k | 0 <= k < |seen| / 2 :: data[k] == Pair(seen[2 * k], seen[2 * k + 1]))
    && (|seen| % 2 == 1 ==> data[|seen| / 2] == HexToChar(seen[|seen| - 1]) * 16)
  }

  lemma FilledStarts(data: seq<Octet>)
    requires |data| == 16
    ensures Filled(data, "")
  {
  }

  lemma FilledSnoc(data: seq<Octet>, seen: string, ch: char)
    requires Filled(data, seen) && |seen| < 32
    ensures var i := |seen| / 2;
            if |seen| % 2 == 0 then Filled(data[i := HexToChar(ch) * 16], seen + [ch])
            else data[i] + HexToChar(ch) < 256 && Filled(data[i := data[i] + HexToChar(ch)], seen + [ch])
  {
    hide HexToChar, Pair;
    if |seen| % 2 == 1 {
      PairAdds(seen[|seen| - 1], ch);
    }
  }

  lemma FilledIsPacked(data: seq<Octet>, seen: string)
    requires Filled(data, seen) && |seen| == 32
    ensures data == Packed(seen)
  {
  }

  method FromString(str: string) returns (r: Option<Id>)
    ensures r == Parse(str)
  {
    hide Digits, Inner, IsHex, Accepted, Scanned, HexToChar, Filled, Packed;
    OnlyMatchedAreAccepted(str);
    var firstDigit, hasBraces, index := true, 0, 0;
    var data := new Octet[16](_ => 0);
    if str == "" {
      return None;
    }
    if str[0] == '{' {
      hasBraces := 1;
    }
    if hasBraces == 1 && str[|str| - 1] != '}' {
      return None;
    }
    ghost var seen := "";
    ScanStarts(str);
    FilledStarts(data[..]);
    for i := hasBraces to |str| - hasBraces
      invariant Scanned(str, i - hasBraces, seen)
      invariant index <= 16 && |seen| == 2 * index + if firstDigit then 0 else 1
      invariant !firstDigit ==> index < 16
      invariant Filled(data[..], seen)
    {
      ScanGoesOn(str, i - hasBraces, seen);
      if str[i] == '-' {
        continue;
      }
      if index >= 16 || !IsHex(str[i]) {
        return None;
      }
      FilledSnoc(data[..], seen, str[i]);
      seen := seen + [str[i]];
      if firstDigit {
        data[index] := HexToChar(str[i]) * 16;
        firstDigit := false;
      } else {
        data[index] := data[index] + HexToChar(str[i]);
        index := index + 1;
        firstDigit := true;
      }
    }
    ScanEnds(str, seen);
    if index < 16 {
      return None;
    }
    FilledIsPacked(data[..], seen);
    return Some(data[..]);
  }

  method ToString(id: Id) returns (text: string)
    ensures text == Canonical(id)
  {
    hide HexOf, Grouped;
    var uustr := new char[36](i => if HyphenAt(i) then '-' else '0');
    var i, index := 0, 0;
    while i < 36
      invariant i <= 36 && i - HyphensBefore(i) == 2 * index
      invariant forall j | i <= j < 36 && HyphenAt(j) :: uustr[j] == '-'
      invariant forall j | 0 <= j < i :: uustr[j] == Canonical(id)[j]
    {
      GroupedAt(HexOf(id), i);
      if HyphenAt(i) {
        i := i + 1;
        continue;
      }
      GroupedAt(HexOf(id), i + 1);
      HexOfAt(id, index);
      uustr[i] := ENCODER[id[index] / 16];
      i := i + 1;
      uustr[i] := ENCODER[id[index] % 16];
      index := index + 1;
      i := i + 1;
    }
    text := uustr[..];
  }

  // ----- Hyphens

  lemma {:induction false} DigitsOfPrefix(s: string, n: nat)
    requires n <= |s|
    ensures Digits(s[..n]) <= Digits(s)
  {
    if n == |s| {
      assert s[..n] == s;
    } else {
      DigitsOfPrefix(s[..|s| - 1], n);
      assert s[..|s| - 1][..n] == s[..n];
    }
  }

  lemma DigitsStep(s: string, n: nat)
    requires n < |s|
    ensures Digits(s[..n + 1]) == if s[n] == '-' then Digits(s[..n]) else Digits(s[..n]) + [s[n]]
    ensures Digits(s[..n + 1]) <= Digits(s)
  {
    assert s[..n + 1][..n] == s[..n];
    DigitsOfPrefix(s, n + 1);
  }

  lemma {:induction false} DigitsOfSum(s: string, t: string)
    ensures Digits(s + t) == Digits(s) + Digits(t)
  {
    if t == "" {
      assert s + t == s;
    } else {
      DigitsOfSum(s, t[..|t| - 1]);
      assert (s + t)[..|s + t| - 1] == s + t[..|t| - 1];
    }
  }

  lemma {:induction false} DigitsAreKept(s: string)
    requires forall k | 0 <= k < |s| :: s[k] != '-'
    ensures Digits(s) == s
  {
    if s != "" {
      DigitsAreKept(s[..|s| - 1]);
    }
  }

  lemma DigitsOfGrouped(digits: string)
    requires |digits| == 32 && forall k | 0 <= k < |digits| :: digits[k] != '-'
    ensures Digits(Grouped(digits)) == digits
  {
    var g1, g2, g3, g4, g5 := digits[..8], digits[8..12], digits[12..16], digits[16..20], digits[20..];
    DigitsOfSum(g1, "-");
    DigitsOfSum(g1 + "-", g2);
    DigitsOfSum(g1 + "-" + g2, "-");
    DigitsOfSum(g1 + "-" + g2 + "-", g3);
    DigitsOfSum(g1 + "-" + g2 + "-" + g3, "-");
    DigitsOfSum(g1 + "-" + g2 + "-" + g3 + "-", g4);
    DigitsOfSum(g1 + "-" + g2 + "-" + g3 + "-" + g4, "-");
    DigitsOfSum(g1 + "-" + g2 + "-" + g3 + "-" + g4 + "-", g5);
    DigitsAreKept(g1);
    DigitsAreKept(g2);
    DigitsAreKept(g3);
    DigitsAreKept(g4);
    DigitsAreKept(g5);
    assert Digits("-") == "";
  }

  // ----- Round trips

  lemma PackedOfHex(id: Id)
    ensures Packed(HexOf(id)) == id && AllHex(HexOf(id))
    ensures forall k | 0 <= k < 32 :: HexOf(id)[k] != '-' && Lower(HexOf(id)[k]) == HexOf(id)[k]
  {
    forall v | 0 <= v < 16
      ensures HexToChar(ENCODER[v]) == v && IsHex(ENCODER[v]) && ENCODER[v] != '-' && Lower(ENCODER[v]) == ENCODER[v]
    {
      EncoderInverts(v, '0');
    }
  }

  lemma PrintedIsParsedBack(id: Id)
    ensures Parse(Canonical(id)) == Some(id)
  {
    PackedOfHex(id);
    DigitsOfGrouped(HexOf(id));
    GroupedAt(HexOf(id), 0);
    assert Canonical(id)[0] != '{';
  }

  function LowerAll(s: string): (low: string)
    requires AllHex(s)
    ensures |low| == |s|
  {
    seq(|s|, k requires 0 <= k < |s| => Lower(s[k]))
  }

  /** Printing what was parsed gives the lower-case 8-4-4-4-12 form of its digits. */
  lemma ParsedIsPrintedCanonically(str: string)
    requires Accepted(str)
    ensures Parse(str).Some? && Canonical(Parse(str).value) == Grouped(LowerAll(Digits(Inner(str))))
  {
    var digits := Digits(Inner(str));
    HexOfPacked(digits);
  }

  lemma HexOfPacked(digits: string)
    requires |digits| == 32 && AllHex(digits)
    ensures HexOf(Packed(digits)) == LowerAll(digits)
  {
    hide HexOf, Packed, Lower, IsHex;
    forall k | 0 <= k < 32 ensures HexOf(Packed(digits))[k] == Lower(digits[k]) {
      HexOfPackedAt(digits, k / 2);
    }
  }

  lemma HexOfPackedAt(digits: string, j: nat)
    requires |digits| == 32 && AllHex(digits) && j < 16
    ensures HexOf(Packed(digits))[2 * j] == Lower(digits[2 * j])
    ensures HexOf(Packed(digits))[2 * j + 1] == Lower(digits[2 * j + 1])
  {
    PackedAt(digits, j);
    hide HexOf, Lower, HexToChar, IsHex, Pair, Packed;
    EncoderInverts(0, digits[2 * j]);
    EncoderInverts(0, digits[2 * j + 1]);
    HexOfAt(Packed(digits), j);
    PairAdds(digits[2 * j], digits[2 * j + 1]);
  }

  lemma PairAdds(high: char, low: char)
    ensures Pair(high, low) == HexToChar(high) * 16 + HexToChar(low)
    ensures Pair(high, low) / 16 == HexToChar(high) && Pair(high, low) % 16 == HexToChar(low)
  {
  }

  /** Two accepted strings name the same UUID exactly when their digits differ at most in case. */
  lemma SameUuidSameDigits(s: string, t: string)
    requires Accepted(s) && Accepted(t)
    ensures Parse(s) == Parse(t) <==> LowerAll(Digits(Inner(s))) == LowerAll(Digits(Inner(t)))
  {
    HexOfPacked(Digits(Inner(s)));
    HexOfPacked(Digits(Inner(t)));
    PackedOfHex(Packed(Digits(Inner(s))));
    PackedOfHex(Packed(Digits(Inner(t))));
  }

  /** The printed text: hyphens at four places, lower-case digits elsewhere. */
  lemma CanonicalShape(id: Id, i: nat)
    requires i < 36
    ensures |Canonical(id)| == 36
    ensures if HyphenAt(i) then Canonical(id)[i] == '-'
            else IsHex(Canonical(id)[i]) && Lower(Canonical(id)[i]) == Canonical(id)[i]
  {
    PackedOfHex(id);
    GroupedAt(HexOf(id), i);
  }

  // ----- The strings in their own terms

  /** The hexadecimal digits, in lower and in upper case, and nothing else. */
  lemma HexCharacters(ch: char)
    ensures IsHex(ch) <==> ch in "0123456789abcdef" || ch in "0123456789ABCDEF"
    ensures forall v | 0 <= v < 16 :: HexToChar("0123456789abcdef"[v]) == v && HexToChar("0123456789ABCDEF"[v]) == v
  {
    if IsHex(ch) {
      assert "0123456789abcdef"[HexToChar(ch)] == ch || "0123456789ABCDEF"[HexToChar(ch)] == ch;
    }
  }

  /** Thirty-two digits, no more and no fewer. */
  lemma DigitsAloneAreParsed(digits: string)
    requires AllHex(digits)
    ensures Parse(digits).Some? <==> |digits| == 32
    ensures |digits| == 32 ==> forall j | 0 <= j < 16 ::
              Parse(digits).value[j] == 16 * HexToChar(digits[2 * j]) + HexToChar(digits[2 * j + 1])
  {
    DigitsAreKept(digits);
  }

  /** A hyphen anywhere inside makes no difference. */
  lemma HyphensAreIgnored(s: string, t: string)
    requires s != "" && t != ""
    ensures Parse(s + "-" + t) == Parse(s + t)
  {
    var a, b := s + "-" + t, s + t;
    assert a[0] == b[0] && a[|a| - 1] == b[|b| - 1];
    if Matched(a) {
      var i := if s[0] == '{' then s[1..] else s;
      var u := if s[0] == '{' then t[..|t| - 1] else t;
      assert Inner(a) == i + "-" + u && Inner(b) == i + u;
      DigitsOfSum(i, "-");
      DigitsOfSum(i + "-", u);
      DigitsOfSum(i, u);
      assert Digits("-") == "";
    }
  }

  /** Neither does a pair of braces around the whole. */
  lemma BracesAreIgnored(s: string)
    requires s == "" || s[0] != '{'
    ensures Parse("{" + s + "}") == Parse(s)
  {
    assert Inner("{" + s + "}") == s;
  }

  lemma OpenBraceMustBeClosed(str: string)
    requires str != "" && str[0] == '{' && str[|str| - 1] != '}'
    ensures Parse(str) == None
  {
    OnlyMatchedAreAccepted(str);
    hide Accepted;
  }

  /** No character may stand in the string but digits, hyphens and the two braces at its ends. */
  lemma OtherCharactersAreRefused(str: string, i: nat)
    requires i < |str| && !IsHex(str[i]) && str[i] != '-'
    requires !(i == 0 && str[0] == '{') && !(i == |str| - 1 && str[0] == '{' && str[i] == '}')
    ensures Parse(str) == None
  {
    if Matched(str) {
      var inner, j := Inner(str), if str[0] == '{' then i - 1 else i;
      DigitsStep(inner, j);
      assert Digits(inner)[|Digits(inner[..j])|] == str[i];
    }
  }

  function Upper(ch: char): char {
    if 'a' <= ch <= 'f' then (ch as int - 32) as char else ch
  }

  function UpperAll(s: string): (up: string)
    ensures |up| == |s|
  {
    seq(|s|, k requires 0 <= k < |s| => Upper(s[k]))
  }

  /** The upper-case form of a printed identifier is that identifier too. */
  lemma UpperCaseIsParsedBack(id: Id)
    ensures Parse(UpperAll(Canonical(id))) == Some(id)
  {
    var up, digits := UpperAll(Canonical(id)), UpperAll(HexOf(id));
    UpperOfGrouped(HexOf(id));
    UpperDigits(id);
    DigitsOfGrouped(digits);
    GroupedAt(digits, 0);
    assert up[0] == digits[0];
    UpperIsPacked(id);
  }

  lemma UpperOfGrouped(digits: string)
    requires |digits| == 32
    ensures UpperAll(Grouped(digits)) == Grouped(UpperAll(digits))
  {
    forall i | 0 <= i < 36 ensures UpperAll(Grouped(digits))[i] == Grouped(UpperAll(digits))[i] {
      GroupedAt(digits, i);
      GroupedAt(UpperAll(digits), i);
    }
  }

  lemma UpperDigits(id: Id)
    ensures AllHex(UpperAll(HexOf(id))) && forall k | 0 <= k < 32 ::
              UpperAll(HexOf(id))[k] != '-' && HexToChar(UpperAll(HexOf(id))[k]) == HexToChar(HexOf(id)[k])
  {
    PackedOfHex(id);
    hide HexOf;
  }

  lemma UpperIsPacked(id: Id)
    ensures Packed(UpperAll(HexOf(id))) == id
  {
    UpperDigits(id);
    PackedOfHex(id);
    hide HexToChar, HexOf, UpperAll;
    assert Packed(UpperAll(HexOf(id))) == Packed(HexOf(id));
  }

  /** The name space identifier for DNS names, appendix C of RFC 4122. */
  const NAMESPACE_DNS: Id :=
    [0x6b, 0xa7, 0xb8, 0x10, 0x9d, 0xad, 0x11, 0xd1, 0x80, 0xb4, 0x00, 0xc0, 0x4f, 0xd4, 0x30, 0xc8]

  lemma HexOfFour(id: Id, j: nat)
    requires j <= 12
    ensures HexOf(id)[2 * j..2 * j + 8]
         == [ENCODER[id[j] / 16], ENCODER[id[j] % 16], ENCODER[id[j + 1] / 16], ENCODER[id[j + 1] % 16],
             ENCODER[id[j + 2] / 16], ENCODER[id[j + 2] % 16], ENCODER[id[j + 3] / 16], ENCODER[id[j + 3] % 16]]
  {
    HexOfAt(id, j);
    HexOfAt(id, j + 1);
    HexOfAt(id, j + 2);
    HexOfAt(id, j + 3);
  }

  lemma DnsNamespaceDigits()
    ensures HexOf(NAMESPACE_DNS) == "6ba7b810" + "9dad11d1" + "80b400c0" + "4fd430c8"
  {
    hide HexOf;
    HexOfFour(NAMESPACE_DNS, 0);
    HexOfFour(NAMESPACE_DNS, 4);
    HexOfFour(NAMESPACE_DNS, 8);
    HexOfFour(NAMESPACE_DNS, 12);
    var h := HexOf(NAMESPACE_DNS);
    assert h[0..8] == "6ba7b810";
    assert h[8..16] == "9dad11d1";
    assert h[16..24] == "80b400c0";
    assert h[24..32] == "4fd430c8";
    assert h == h[0..8] + h[8..16] + h[16..24] + h[24..32];
  }

  lemma DnsNamespaceText()
    ensures Canonical(NAMESPACE_DNS) == "6ba7b810" + "-" + "9dad" + "-" + "11d1" + "-" + "80b4" + "-" + "00c04fd430c8"
  {
    hide HexOf;
    DnsNamespaceDigits();
    var h := HexOf(NAMESPACE_DNS);
    assert h[..8] == "6ba7b810" && h[8..12] == "9dad" && h[12..16] == "11d1" && h[16..20] == "80b4";
    assert h[20..] == "00c04fd430c8";
  }
}
