/**
 * `PublicID` (backend/utilService/image-public-id.go): an 18-character
 * identifier for uploaded images, each character drawn with `rand.Intn`
 * from a 64-character alphabet.
 *
 * The random source is an oracle `intn(call, n)`: the value the `call`-th
 * draw returns when asked for a number below `n`. Seeding is left out.
 */
module PublicId {

  const Lower := "abcdefghijklmnopqrstuvwxyz"
  const Digits := "0123456789"
  const Upper := "ABCDEFGHIJKLMNOPQRSTUVWXYZ"

  /** `chars`: lower-case letters, '_', digits, '-', upper-case letters. */
  const Chars := Lower + "_" + Digits + "-" + Upper

  /** `length`. */
  const IdLength := 18

  /** The URL- and filename-safe alphabet of section 5 of RFC 4648, in the
      order of its table: upper case, lower case, digits, '-', '_'. */
  const Base64UrlAlphabet := Upper + Lower + Digits + "-_"

  predicate IsUrlSafe(c: char) {
    'A' <= c <= 'Z' || 'a' <= c <= 'z' || '0' <= c <= '9' || c == '-' || c == '_'
  }

  /** The position a URL-safe character has in `Chars`. */
  function Rank(c: char): (k: int)
    ensures IsUrlSafe(c) ==> 0 <= k < 64
  {
    if 'a' <= c <= 'z' then c as int - 'a' as int
    else if c == '_' then 26
    else if '0' <= c <= '9' then 27 + (c as int - '0' as int)
    else if c == '-' then 37
    else if 'A' <= c <= 'Z' then 38 + (c as int - 'A' as int)
    else -1
  }

  /** `rand.Intn(n)` returns a number in [0, n) for every positive `n`. */
  ghost predicate IntnInRange(intn: (nat, nat) -> nat) {
    forall call: nat, n: nat :: 0 < n ==> intn(call, n) < n
  }

  lemma RankInjective(c: char, d: char)
    requires IsUrlSafe(c) && IsUrlSafe(d) && Rank(c) == Rank(d)
    ensures c == d
  {
  }

  lemma LowerLetters()
    ensures |Lower| == 26
    ensures forall i | 0 <= i < |Lower| :: 'a' <= Lower[i] <= 'z' && Lower[i] as int == 'a' as int + i
  {
  }

  lemma DigitChars()
    ensures |Digits| == 10
    ensures forall i | 0 <= i < |Digits| :: '0' <= Digits[i] <= '9' && Digits[i] as int == '0' as int + i
  {
  }

  lemma UpperLetters()
    ensures |Upper| == 26
    ensures forall i | 0 <= i < |Upper| :: 'A' <= Upper[i] <= 'Z' && Upper[i] as int == 'A' as int + i
  {
  }

  /** Each character of `Chars` is URL-safe and sits at its rank; so the 64
      characters are pairwise distinct. */
  lemma CharsRanked()
    ensures |Chars| == 64
    ensures forall i | 0 <= i < |Chars| :: IsUrlSafe(Chars[i]) && Rank(Chars[i]) == i
    ensures forall i, j | 0 <= i < j < |Chars| :: Chars[i] != Chars[j]
  {
    LowerLetters();
    DigitChars();
    UpperLetters();
    forall i | 0 <= i < |Chars|
      ensures IsUrlSafe(Chars[i]) && Rank(Chars[i]) == i
    {
      if i < 26 {
        assert Chars[i] == Lower[i];
      } else if i == 26 {
        assert Chars[i] == '_';
      } else if i < 37 {
        assert Chars[i] == Digits[i - 27];
      } else if i == 37 {
        assert Chars[i] == '-';
      } else {
        assert Chars[i] == Upper[i - 38];
      }
    }
  }

  lemma InRuns(c: char)
    ensures c in Lower <==> 'a' <= c <= 'z'
    ensures c in Digits <==> '0' <= c <= '9'
    ensures c in Upper <==> 'A' <= c <= 'Z'
  {
    LowerLetters();
    DigitChars();
    UpperLetters();
    if 'a' <= c <= 'z' {
      assert Lower[c as int - 'a' as int] == c;
    }
    if '0' <= c <= '9' {
      assert Digits[c as int - '0' as int] == c;
    }
    if 'A' <= c <= 'Z' {
      assert Upper[c as int - 'A' as int] == c;
    }
  }

  /** A character is in `Chars` exactly when it is URL-safe, and so is it in
      the RFC 4648 alphabet: the two hold the same 64 characters. */
  lemma CharsAreBase64Url(c: char)
    ensures c in Chars <==> IsUrlSafe(c)
    ensures c in Base64UrlAlphabet <==> IsUrlSafe(c)
  {
    InRuns(c);
    assert c in Chars <==> c in Lower || c == '_' || c in Digits || c == '-' || c in Upper;
    assert c in Base64UrlAlphabet <==> c in Upper || c in Lower || c in Digits || c == '-' || c == '_';
  }

  /** The generator loop. */
  method PublicID(intn: (nat, nat) -> nat) returns (word: string)
    requires IntnInRange(intn)
    ensures |word| == IdLength
    ensures forall k | 0 <= k < |word| :: intn(k, |Chars|) < |Chars| && word[k] == Chars[intn(k, |Chars|)]
    ensures forall k | 0 <= k < |word| :: IsUrlSafe(word[k])
  {
    CharsRanked();
    var length := IdLength;
    word := "";
    var i := 0;
    while i < length
      invariant 0 <= i <= length
      invariant |word| == i
      invariant forall k | 0 <= k < i :: intn(k, |Chars|) < |Chars| && word[k] == Chars[intn(k, |Chars|)]
    {
      var index := intn(i, |Chars|);
      word := word + [Chars[index]];
      i := i + 1;
    }
  }

  /** Every 18-character word over `Chars` is produced by some sequence of
      draws: the generator can reach all 64^18 identifiers. */
  lemma EveryIdReachable(w: string) returns (intn: (nat, nat) -> nat)
    requires |w| == IdLength
    requires forall k | 0 <= k < |w| :: w[k] in Chars
    ensures IntnInRange(intn)
    ensures forall k | 0 <= k < |w| :: Chars[intn(k, |Chars|)] == w[k]
  {
    CharsRanked();
    intn := (call: nat, n: nat) =>
      if call < |w| && n == |Chars| && 0 <= Rank(w[call]) < n then Rank(w[call]) else 0;
    forall k | 0 <= k < |w|
      ensures Chars[intn(k, |Chars|)] == w[k]
    {
      CharsAreBase64Url(w[k]);
      RankInjective(Chars[Rank(w[k])], w[k]);
    }
  }
}
