/**
 ULID identifiers: 48 bits of time and 80 random bits as 26 characters, such that text order is
 numeric order (ULID specification, sections "Encoding" and "Sorting").
 */
module Ulid {
  import opened Wrappers

  const ALPHABET := "0123456789ABCDEFGHJKMNPQRSTVWXYZ"
  const LENGTH := 26

  datatype Error = TimeOutOfRange | BadEntropy | BadIdentifier | NotCanonical

  type Byte = b: int | 0 <= b < 256

  // ---------------------------------------------------------------- digits

  /** The alphabet as ranges of characters: the letters I, L, O and U are left out. */
  function Letter(d: nat): char
    requires d < 32
  {
    if d < 10 then '0' + d as char
    else if d < 18 then 'A' + (d - 10) as char
    else if d < 20 then 'J' + (d - 18) as char
    else if d < 22 then 'M' + (d - 20) as char
    else if d < 27 then 'P' + (d - 22) as char
    else 'V' + (d - 27) as char
  }

  predicate IsLetter(c: char) {
    '0' <= c <= '9' || 'A' <= c <= 'H' || c == 'J' || c == 'K' || c == 'M' || c == 'N' || 'P' <= c <= 'T'
      || 'V' <= c <= 'Z'
  }

  function Digit(c: char): (d: nat)
    requires IsLetter(c)
    ensures d < 32 && Letter(d) == c
  {
    if c <= '9' then (c - '0') as nat
    else if c <= 'H' then 10 + (c - 'A') as nat
    else if c <= 'K' then 18 + (c - 'J') as nat
    else if c <= 'N' then 20 + (c - 'M') as nat
    else if c <= 'T' then 22 + (c - 'P') as nat
    else 27 + (c - 'V') as nat
  }

  lemma LettersAreOrdered(d: nat, e: nat)
    requires d < 32 && e < 32
    ensures IsLetter(Letter(d)) && Digit(Letter(d)) == d
    ensures Letter(d) < Letter(e) <==> d < e
  {
  }

  lemma AlphabetIsLetters(d: nat)
    requires d < 32
    ensures |ALPHABET| == 32 && ALPHABET[d] == Letter(d)
  {
    assert ALPHABET == "0123456789ABCDEFGH" + "JKMNPQRSTVWXYZ";
  }

  function Power(n: nat): nat {
    if n == 0 then 1 else 32 * Power(n - 1)
  }

  /** The number that a text stands for, most significant character first. */
  function Value(s: string): nat
    requires forall c :: c in s ==> IsLetter(c)
  {
    if |s| == 0 then 0 else 32 * Value(s[..|s| - 1]) + Digit(s[|s| - 1])
  }

  /** The last `n` base-32 digits of a number. */
  function Encoded(v: nat, n: nat): (s: string)
    ensures |s| == n && forall c :: c in s ==> IsLetter(c)
  {
    if n == 0 then "" else Encoded(v / 32, n - 1) + [Letter(v % 32)]
  }

  lemma {:induction false} ValueBelow(s: string)
    requires forall c :: c in s ==> IsLetter(c)
    ensures Value(s) < Power(|s|)
  {
    if |s| > 0 {
      ValueBelow(s[..|s| - 1]);
    }
  }

  /** Encoding and decoding are inverse on numbers that fit. */
  lemma {:induction false} ValueOfEncoded(v: nat, n: nat)
    requires v < Power(n)
    ensures Value(Encoded(v, n)) == v
  {
    if n > 0 {
      ValueOfEncoded(v / 32, n - 1);
      assert Encoded(v, n)[..n - 1] == Encoded(v / 32, n - 1);
    }
  }

  /** Every text over the alphabet is the encoding of its value. */
  lemma {:induction false} EncodedOfValue(s: string)
    requires forall c :: c in s ==> IsLetter(c)
    ensures Encoded(Value(s), |s|) == s
  {
    if |s| > 0 {
      var front := s[..|s| - 1];
      EncodedOfValue(front);
      assert Value(s) / 32 == Value(front) && Value(s) % 32 == Digit(s[|s| - 1]);
      assert s == front + [s[|s| - 1]];
    }
  }

  /** String comparison of equally long texts. */
  ghost predicate Sorts(a: string, b: string) {
    exists i :: 0 <= i < |a| && i < |b| && a[..i] == b[..i] && a[i] < b[i]
  }

  lemma {:induction false} SortsByValue(v: nat, w: nat, n: nat)
    requires v < w < Power(n)
    ensures Sorts(Encoded(v, n), Encoded(w, n))
  {
    var a, b := Encoded(v, n), Encoded(w, n);
    assert n > 0;
    LettersAreOrdered(v % 32, w % 32);
    if v / 32 == w / 32 {
      assert a[..n - 1] == b[..n - 1] && a[n - 1] < b[n - 1];
    } else {
      SortsByValue(v / 32, w / 32, n - 1);
      var c, d := Encoded(v / 32, n - 1), Encoded(w / 32, n - 1);
      var i :| 0 <= i < |c| && i < |d| && c[..i] == d[..i] && c[i] < d[i];
      assert a[..i] == c[..i] && b[..i] == d[..i] && a[i] == c[i] && b[i] == d[i];
    }
  }

  lemma SortsOneWay(a: string, b: string)
    requires Sorts(a, b)
    ensures !Sorts(b, a) && a != b
  {
    var i :| 0 <= i < |a| && i < |b| && a[..i] == b[..i] && a[i] < b[i];
    forall j | i < j < |b| && j < |a| ensures b[..j] != a[..j] {
      assert b[..j][i] == b[i] && a[..j][i] == a[i];
    }
    forall j | 0 <= j < i ensures a[j] == b[j] {
      assert a[..i][j] == b[..i][j];
    }
  }

  /** Text order is numeric order. */
  lemma TextOrderIsNumericOrder(v: nat, w: nat, n: nat)
    requires v < Power(n) && w < Power(n)
    ensures Sorts(Encoded(v, n), Encoded(w, n)) <==> v < w
  {
    if v < w {
      SortsByValue(v, w, n);
    } else if w < v {
      SortsByValue(w, v, n);
      SortsOneWay(Encoded(w, n), Encoded(v, n));
    } else if Sorts(Encoded(v, n), Encoded(w, n)) {
      SortsOneWay(Encoded(v, n), Encoded(w, n));
    }
  }

  // ---------------------------------------------------------------- generating

  const TIMES: nat := 0x1_0000_0000_0000
  const RANDOMS: nat := 0x1_0000_0000_0000_0000_0000

  /** `int.from_bytes(…, "big")`. */
  function BigEndian(bytes: seq<Byte>): nat {
    if |bytes| == 0 then 0 else 256 * BigEndian(bytes[..|bytes| - 1]) + bytes[|bytes| - 1]
  }

  function Power256(n: nat): nat {
    if n == 0 then 1 else 256 * Power256(n - 1)
  }

  lemma {:induction false} BigEndianBelow(bytes: seq<Byte>)
    ensures BigEndian(bytes) < Power256(|bytes|)
  {
    if |bytes| > 0 {
      BigEndianBelow(bytes[..|bytes| - 1]);
    }
  }

  lemma Powers()
    ensures Power256(10) == RANDOMS && Power(26) == 4 * (TIMES * RANDOMS)
  {
    assert Power256(5) == 0x100_0000_0000;
    assert Power(5) == 0x200_0000;
    assert Power(10) == 0x4_0000_0000_0000 by {
      assert Power(10) == 32 * (32 * (32 * (32 * (32 * Power(5)))));
    }
    assert Power(15) == 32 * (32 * (32 * (32 * (32 * Power(10)))));
    assert Power(20) == 32 * (32 * (32 * (32 * (32 * Power(15)))));
    assert Power(25) == 32 * (32 * (32 * (32 * (32 * Power(20)))));
  }

  /** The 128-bit number of one identifier. */
  function Number(milliseconds: nat, bytes: seq<Byte>): nat {
    milliseconds * RANDOMS + BigEndian(bytes)
  }

  /** `generate_ulid`: the characters are filled in from the right while the number is shifted away. */
  method GenerateUlid(milliseconds: int, bytes: seq<Byte>) returns (r: Result<string, Error>)
    ensures r.Success? <==> 0 <= milliseconds < TIMES && |bytes| == 10
    ensures r.Success? ==> r.value == Encoded(Number(milliseconds, bytes), LENGTH)
  {
    if !(0 <= milliseconds < TIMES) {
      return Failure(TimeOutOfRange);
    }
    if |bytes| != 10 {
      return Failure(BadEntropy);
    }
    var value := Number(milliseconds, bytes);
    var characters := new char[26](_ => '0');
    for index := 26 downto 0
      invariant Encoded(Number(milliseconds, bytes), 26) == Encoded(value, index) + characters[index..]
    {
      AlphabetIsLetters(value % 32);
      ghost var rest := characters[index + 1..];
      characters[index] := ALPHABET[value % 32];
      assert characters[index..] == [characters[index]] + rest;
      value := value / 32;
    }
    assert characters[0..] == characters[..];
    return Success(characters[..]);
  }

  // ---------------------------------------------------------------- validating

  datatype IdKind = TaskId | ApplicationId | JobId | ApprovalId | ArtifactId | ContactId | EventId
  {
    function Prefix(): string {
      match this
      case TaskId => "TASK"
      case ApplicationId => "APP"
      case JobId => "JOB"
      case ApprovalId => "APR"
      case ArtifactId => "ART"
      case ContactId => "CNT"
      case EventId => "EVT"
    }
  }

  /** An identifier tells its kind: the prefixes differ, and none contains the underscore that ends it. */
  lemma KindsAreTold(a: IdKind, b: IdKind, value: string)
    requires ValidateId(value, a).Success? && ValidateId(value, b).Success?
    ensures a == b
    ensures TaskId.Prefix() == "TASK" && ApplicationId.Prefix() == "APP" && JobId.Prefix() == "JOB"
    ensures ApprovalId.Prefix() == "APR" && ArtifactId.Prefix() == "ART" && ContactId.Prefix() == "CNT"
    ensures EventId.Prefix() == "EVT"
  {
    var s :| IsUlid(s) && value == a.Prefix() + "_" + s;
    var t :| IsUlid(t) && value == b.Prefix() + "_" + t;
    assert |a.Prefix()| == |b.Prefix()|;
    assert a.Prefix() == value[..|a.Prefix()|] == b.Prefix();
    PrefixesDiffer(a, b);
  }

  lemma PrefixesDiffer(a: IdKind, b: IdKind)
    requires a.Prefix() == b.Prefix()
    ensures a == b
  {
    var x, y := a.Prefix(), b.Prefix();
    assert x[0] == y[0] && x[1] == y[1] && x[2] == y[2];
  }

  predicate IsUlid(s: string) {
    |s| == LENGTH && (forall c :: c in s ==> IsLetter(c)) && '0' <= s[0] <= '7'
  }

  /** `validate_id`: the pattern of the kind, then the test of the first character. */
  function ValidateId(value: string, kind: IdKind): (r: Result<string, Error>)
    ensures r.Success? <==> exists s :: IsUlid(s) && value == kind.Prefix() + "_" + s
    ensures r.Success? ==> r.value == value
  {
    var n := |kind.Prefix()| + 1;
    if |value| != n + LENGTH || value[..n] != kind.Prefix() + "_" || exists c :: c in value[n..] && !IsLetter(c)
    then
      assert forall s :: value == kind.Prefix() + "_" + s ==> value[n..] == s;
      Failure(BadIdentifier)
    else if value[n] !in "01234567" then
      assert forall s :: value == kind.Prefix() + "_" + s ==> value[n..] == s;
      Failure(NotCanonical)
    else
      assert value == kind.Prefix() + "_" + value[n..];
      Success(value)
  }

  /** A generated identifier is valid, and decodes to its time and its random bits. */
  lemma GeneratedIsValid(milliseconds: nat, bytes: seq<Byte>, kind: IdKind)
    requires milliseconds < TIMES && |bytes| == 10
    ensures var s := Encoded(Number(milliseconds, bytes), LENGTH);
      && IsUlid(s)
      && ValidateId(kind.Prefix() + "_" + s, kind).Success?
      && Value(s) / RANDOMS == milliseconds && Value(s) % RANDOMS == BigEndian(bytes)
  {
    NumberFits(milliseconds, bytes);
    ValueOfEncoded(Number(milliseconds, bytes), LENGTH);
    FirstDigit(Number(milliseconds, bytes), LENGTH);
  }

  lemma NumberFits(milliseconds: nat, bytes: seq<Byte>)
    requires milliseconds < TIMES && |bytes| == 10
    ensures BigEndian(bytes) < RANDOMS && Number(milliseconds, bytes) < TIMES * RANDOMS
    ensures 4 * Number(milliseconds, bytes) < Power(LENGTH)
  {
    BigEndianBelow(bytes);
    Powers();
  }

  /** The first digit of a number that fits two bits short is below eight. */
  lemma {:induction false} FirstDigit(v: nat, n: nat)
    requires n > 0 && 4 * v < Power(n)
    ensures '0' <= Encoded(v, n)[0] <= '7'
  {
    if n > 1 {
      FirstDigit(v / 32, n - 1);
    } else {
      assert Power(1) == 32;
    }
  }

  /** The identifiers that pass validation are exactly the encodings of 128-bit numbers. */
  lemma ValidMeansEncoded(s: string)
    ensures IsUlid(s) <==> exists v: nat :: 4 * v < Power(LENGTH) && s == Encoded(v, LENGTH)
  {
    if IsUlid(s) {
      EncodedOfValue(s);
      ValueBelow(s);
      SmallFirstDigit(s);
    } else if v: nat :| 4 * v < Power(LENGTH) && s == Encoded(v, LENGTH) {
      FirstDigit(v, LENGTH);
      assert false;
    }
  }

  lemma {:induction false} SmallFirstDigit(s: string)
    requires |s| > 0 && (forall c :: c in s ==> IsLetter(c)) && '0' <= s[0] <= '7'
    ensures 4 * Value(s) < Power(|s|)
  {
    var front := s[..|s| - 1];
    if |s| > 1 {
      assert front[0] == s[0];
      SmallFirstDigit(front);
      Carry(Value(front), Digit(s[|s| - 1]), Power(|front|));
    } else {
      assert Value(front) == 0 && Power(1) == 32 && Power(0) == 1;
    }
  }

  lemma Carry(v: nat, d: nat, p: nat)
    requires 4 * v < p && d < 32 && p % 32 == 0
    ensures 4 * (32 * v + d) < 32 * p
  {
  }

  /** Identifiers of a smaller millisecond sort first, whatever their random bits. */
  lemma EarlierSortsFirst(early: nat, late: nat, x: seq<Byte>, y: seq<Byte>)
    requires early < late < TIMES && |x| == 10 && |y| == 10
    ensures Sorts(Encoded(Number(early, x), LENGTH), Encoded(Number(late, y), LENGTH))
  {
    NumberFits(early, x);
    NumberFits(late, y);
    assert (early + 1) * RANDOMS <= late * RANDOMS;
    TextOrderIsNumericOrder(Number(early, x), Number(late, y), LENGTH);
  }
}
