/**
  Job identifiers (main.py:48-52): thirty symbols drawn with replacement from
  the ASCII letters followed by the decimal digits. The random draws are an
  input: each draw is the index of the symbol that `random.choices` picked.
*/
module JobIds {

  const AsciiLowercase: string := "abcdefghijklmnopqrstuvwxyz"
  const AsciiUppercase: string := "ABCDEFGHIJKLMNOPQRSTUVWXYZ"
  const Digits: string := "0123456789"

  /** `string.ascii_letters + string.digits`: 62 symbols. */
  const Alphabet: string := AsciiLowercase + AsciiUppercase + Digits

  /** The `k` passed to `random.choices`. */
  const JobIdLength: nat := 30

  /** One random draw: an index into the alphabet. */
  type Draw = i: nat | i < 62

  /** A string the generator can return: thirty symbols of the alphabet. */
  predicate IsJobId(s: string) {
    |s| == JobIdLength && forall i :: 0 <= i < |s| ==> s[i] in Alphabet
  }

  /** The alphabet is three runs of consecutive code points. */
  lemma AlphabetLayout()
    ensures |Alphabet| == 62
    ensures forall i :: 0 <= i < 26 ==> Alphabet[i] as int == 'a' as int + i
    ensures forall i :: 26 <= i < 52 ==> Alphabet[i] as int == 'A' as int + (i - 26)
    ensures forall i :: 52 <= i < 62 ==> Alphabet[i] as int == '0' as int + (i - 52)
  {
    assert forall i :: 0 <= i < 26 ==> Alphabet[i] == AsciiLowercase[i];
    assert forall i :: 26 <= i < 52 ==> Alphabet[i] == AsciiUppercase[i - 26];
    assert forall i :: 52 <= i < 62 ==> Alphabet[i] == Digits[i - 52];
  }

  /** `''.join(random.choices(characters, k=30))` with the draws given. */
  function GenerateJobId(draws: seq<Draw>): (id: string)
    requires |draws| == JobIdLength
    ensures IsJobId(id)
  {
    seq(JobIdLength, i requires 0 <= i < JobIdLength => Alphabet[draws[i]])
  }

  /** The draw that picks symbol `c`: the inverse of indexing the alphabet. */
  function SymbolIndex(c: char): (k: Draw)
    requires c in Alphabet
    ensures Alphabet[k] == c
    ensures forall j :: 0 <= j < |Alphabet| && Alphabet[j] == c ==> j == k
  {
    AlphabetLayout();
    if 'a' <= c <= 'z' then c as int - 'a' as int
    else if 'A' <= c <= 'Z' then 26 + (c as int - 'A' as int)
    else 52 + (c as int - '0' as int)
  }

  /** The draws that make the generator return `id`. */
  function DrawsFor(id: string): (draws: seq<Draw>)
    requires IsJobId(id)
    ensures |draws| == JobIdLength
    ensures GenerateJobId(draws) == id
  {
    seq(JobIdLength, i requires 0 <= i < JobIdLength => SymbolIndex(id[i]))
  }

  /** Distinct draw sequences give distinct ids: no two draws collide by accident. */
  lemma GenerateJobIdInjective(d1: seq<Draw>, d2: seq<Draw>)
    requires |d1| == JobIdLength && |d2| == JobIdLength
    requires GenerateJobId(d1) == GenerateJobId(d2)
    ensures d1 == d2
  {
    forall i | 0 <= i < JobIdLength
      ensures d1[i] == d2[i]
    {
      var c := GenerateJobId(d1)[i];
      assert Alphabet[d1[i]] == c == Alphabet[d2[i]];
      assert d1[i] == SymbolIndex(c) == d2[i];
    }
  }

  /** Draws and ids are in one-to-one correspondence. */
  lemma DrawsForGenerateJobId(draws: seq<Draw>)
    requires |draws| == JobIdLength
    ensures DrawsFor(GenerateJobId(draws)) == draws
  {
    var id := GenerateJobId(draws);
    GenerateJobIdInjective(DrawsFor(id), draws);
  }

  /** Every id is alphanumeric, so it never begins with a path separator or a dot. */
  lemma JobIdHasNoSeparator(id: string)
    requires IsJobId(id)
    ensures id != [] && id[0] != '/' && id[0] != '.'
    ensures forall i :: 0 <= i < |id| ==> id[i] != '/'
  {
    forall i | 0 <= i < |id|
      ensures id[i] != '/' && id[i] != '.'
    {
      var k := SymbolIndex(id[i]);
    }
  }
}
