/**
 * Reading integrity metadata and comparing digests
 * (packages/kernel-utils/src/subresource-integrity.ts; section 3.3 of W3C Subresource Integrity).
 */
module SubresourceIntegrity {
  import opened Prelude

  /** The algorithms, weakest first: this order is what "strongest" means. */
  const ALGORITHMS: seq<string> := ["sha256", "sha384", "sha512"]

  predicate Whitespace(c: char) {
    c == '\t' || c == '\n' || c == '\U{000C}' || c == '\r' || c == ' '
  }

  /** What stands before the first of some character, and where that is. */
  function IndexOf(s: string, c: char): (i: nat)
    ensures i <= |s| && (i < |s| ==> s[i] == c) && forall j | 0 <= j < i :: s[j] != c
  {
    if s == [] || s[0] == c then 0 else 1 + IndexOf(s[1..], c)
  }

  function WordEnd(s: string): (i: nat)
    ensures i <= |s| && (i < |s| ==> Whitespace(s[i])) && forall j | 0 <= j < i :: !Whitespace(s[j])
  {
    if s == [] || Whitespace(s[0]) then 0 else 1 + WordEnd(s[1..])
  }

  /** The words whitespace separates. Empty ones are harmless: they name no digest. */
  function Words(s: string): seq<string>
    decreases |s|
  {
    if WordEnd(s) == |s| then [s] else [s[..WordEnd(s)]] + Words(s[WordEnd(s) + 1..])
  }

  /** A word's algorithm, as a strength, and its digest. Whatever follows a `?` is an option and read past. */
  datatype Digest = Digest(strength: nat, value: string)

  function Strength(name: string): nat {
    if name == ALGORITHMS[0] then 0 else if name == ALGORITHMS[1] then 1 else if name == ALGORITHMS[2] then 2 else 3
  }

  function ReadWord(word: string): (d: Option<Digest>)
    ensures d.Some? ==> d.value.strength < 3
  {
    var expression := word[..IndexOf(word, '?')];
    var separator := IndexOf(expression, '-');
    if separator == |expression| || Strength(expression[..separator]) == 3 then None
    else Some(Digest(Strength(expression[..separator]), expression[separator + 1..]))
  }

  /** The digests the words name in algorithms SRI is defined over, in order. */
  function Understood(words: seq<string>): seq<Digest> {
    if words == [] then []
    else match ReadWord(words[0])
         case None => Understood(words[1..])
         case Some(d) => [d] + Understood(words[1..])
  }

  /** The digests written for one algorithm. */
  function ValuesFor(digests: seq<Digest>, strength: nat): seq<string> {
    if digests == [] then []
    else if digests[0].strength == strength then [digests[0].value] + ValuesFor(digests[1..], strength)
    else ValuesFor(digests[1..], strength)
  }

  predicate IsStrongest(digests: seq<Digest>, strength: nat) {
    (exists i | 0 <= i < |digests| :: digests[i].strength == strength)
    && forall i | 0 <= i < |digests| :: digests[i].strength <= strength
  }

  datatype Check = Check(strength: nat, values: seq<string>)

  lemma {:induction false} ValuesAppend(digests: seq<Digest>, d: Digest, strength: nat)
    ensures ValuesFor(digests + [d], strength)
            == ValuesFor(digests, strength) + if d.strength == strength then [d.value] else []
  {
    if digests == [] {
      assert digests + [d] == [d] && [d][1..] == [];
    } else {
      assert (digests + [d])[1..] == digests[1..] + [d];
      ValuesAppend(digests[1..], d, strength);
    }
  }

  lemma {:induction false} NoneStronger(digests: seq<Digest>, strength: nat)
    requires forall i | 0 <= i < |digests| :: digests[i].strength < strength
    ensures ValuesFor(digests, strength) == []
  {
    if digests != [] { NoneStronger(digests[1..], strength); }
  }

  lemma {:induction false} UnderstoodAppend(words: seq<string>, word: string)
    ensures Understood(words + [word]) == Understood(words) + if ReadWord(word).Some? then [ReadWord(word).value] else []
  {
    hide ReadWord;
    if words == [] {
      assert words + [word] == [word] && [word][1..] == [];
    } else {
      assert (words + [word])[1..] == words[1..] + [word];
      UnderstoodAppend(words[1..], word);
    }
  }

  /** The strongest algorithm named so far, if any, and the digests written for it. */
  predicate Best(digests: seq<Digest>, strongest: int, values: seq<string>) {
    if strongest < 0 then digests == [] && values == []
    else IsStrongest(digests, strongest) && values == ValuesFor(digests, strongest)
  }

  /** A stronger algorithm discards what the weaker ones asked for; another digest for the same one is added. */
  lemma BestWithOneMore(digests: seq<Digest>, strongest: int, values: seq<string>, d: Digest)
    requires Best(digests, strongest, values)
    ensures d.strength > strongest ==> Best(digests + [d], d.strength, [d.value])
    ensures d.strength == strongest ==> Best(digests + [d], strongest, values + [d.value])
    ensures d.strength < strongest ==> Best(digests + [d], strongest, values)
  {
    var after := digests + [d];
    assert after[|digests|] == d && forall j | 0 <= j < |digests| :: after[j] == digests[j];
    if d.strength > strongest {
      NoneStronger(digests, d.strength);
      ValuesAppend(digests, d, d.strength);
    } else {
      ValuesAppend(digests, d, strongest);
      var i :| 0 <= i < |digests| && digests[i].strength == strongest;
      assert after[i].strength == strongest;
    }
  }

  /**
   * The one check a body has to pass: the strongest algorithm the metadata names, and every digest written for
   * it, in order. None if it names no digest that can be checked.
   */
  method ParseIntegrityMetadata(metadata: string) returns (check: Option<Check>)
    ensures check.None? <==> Understood(Words(metadata)) == []
    ensures check.Some? ==> IsStrongest(Understood(Words(metadata)), check.value.strength)
    ensures check.Some? ==> check.value.values == ValuesFor(Understood(Words(metadata)), check.value.strength)
  {
    hide ReadWord, Best;
    var words := Words(metadata);
    var strongest: int := -1;
    var values: seq<string> := [];
    var i := 0;
    NothingBest();
    assert words[..0] == [];
    while i < |words|
      invariant 0 <= i <= |words| && Best(Understood(words[..i]), strongest, values)
    {
      var read := ReadWord(words[i]);
      UnderstoodAppend(words[..i], words[i]);
      assert words[..i + 1] == words[..i] + [words[i]];
      if read.Some? {
        var d := read.value;
        BestWithOneMore(Understood(words[..i]), strongest, values, d);
        assert Understood(words[..i + 1]) == Understood(words[..i]) + [d] && [] + [d.value] == [d.value];
        if d.strength > strongest { strongest, values := d.strength, []; }
        if d.strength == strongest { values := values + [d.value]; }
      } else {
        assert Understood(words[..i + 1]) == Understood(words[..i]);
      }
      i := i + 1;
    }
    assert words[..|words|] == words;
    BestIsStrongest(Understood(words), strongest, values);
    check := if strongest < 0 then None else Some(Check(strongest, values));
  }

  lemma NothingBest()
    ensures Best([], -1, [])
  {
  }

  lemma BestIsStrongest(digests: seq<Digest>, strongest: int, values: seq<string>)
    requires Best(digests, strongest, values)
    ensures strongest < 0 <==> digests == []
    ensures strongest >= 0 ==> IsStrongest(digests, strongest) && values == ValuesFor(digests, strongest)
  {
  }

  // ------------------------------------------------------------------ what is understood

  /** The word names an algorithm and writes a digest for it, and perhaps an option after that. */
  predicate Writes(word: string, name: string, value: string) {
    var n, m := |name|, |name| + 1 + |value|;
    && m <= |word| && word[..n] == name && word[n] == '-' && word[n + 1..m] == value
    && (forall i | 0 <= i < |value| :: value[i] != '?') && (m < |word| ==> word[m] == '?')
  }

  /** Exactly the words that write a digest for one of three algorithms are understood, weakest first. */
  lemma ReadsWhatIsWritten(word: string, d: Digest)
    ensures ReadWord(word) == Some(d) <==>
              || (d.strength == 0 && Writes(word, "sha256", d.value))
              || (d.strength == 1 && Writes(word, "sha384", d.value))
              || (d.strength == 2 && Writes(word, "sha512", d.value))
  {
    WritesExactly(word, "sha256", d.value);
    WritesExactly(word, "sha384", d.value);
    WritesExactly(word, "sha512", d.value);
  }

  lemma WritesExactly(word: string, name: string, value: string)
    requires forall i | 0 <= i < |name| :: name[i] != '-' && name[i] != '?'
    ensures var expression := word[..IndexOf(word, '?')];
            var separator := IndexOf(expression, '-');
            Writes(word, name, value) <==> separator < |expression| && expression[..separator] == name && expression[separator + 1..] == value
  {
    var end := IndexOf(word, '?');
    var expression := word[..end];
    var separator := IndexOf(expression, '-');
    if Writes(word, name, value) {
      var n, m := |name|, |name| + 1 + |value|;
      forall j | 0 <= j < m ensures word[j] != '?' {
        if j < n { assert word[..n][j] == name[j]; } else if j > n { assert word[n + 1..m][j - n - 1] == value[j - n - 1]; }
      }
      assert end == m;
      forall j | 0 <= j < n ensures expression[j] != '-' { assert word[..n][j] == name[j]; }
      assert separator == n;
      assert expression[..n] == word[..n] && expression[n + 1..] == word[n + 1..m];
    }
    if separator < |expression| && expression[..separator] == name && expression[separator + 1..] == value {
      assert word[..separator] == expression[..separator] && word[separator + 1..end] == expression[separator + 1..];
      forall i | 0 <= i < |value| ensures value[i] != '?' { assert value[i] == word[separator + 1 + i]; }
    }
  }

  predicate IsSpace(c: char) {
    c == ' ' || c == '\t' || c == '\n' || c == '\r' || c == '\U{000C}'
  }

  /** The words with one space between each two, and none within. */
  ghost predicate Separated(words: seq<string>, s: string)
    decreases |words|
  {
    && words != [] && (forall i | 0 <= i < |words[0]| :: !IsSpace(words[0][i]))
    && (if |words| == 1 then s == words[0]
        else |words[0]| < |s| && s[..|words[0]|] == words[0] && IsSpace(s[|words[0]|]) && Separated(words[1..], s[|words[0]| + 1..]))
  }

  lemma {:induction false} WordsAreSeparated(s: string)
    ensures Separated(Words(s), s)
    decreases |s|
  {
    var end := WordEnd(s);
    if end == |s| {
      assert Words(s) == [s];
    } else {
      WordsAreSeparated(s[end + 1..]);
      assert Words(s)[0] == s[..end] && Words(s)[1..] == Words(s[end + 1..]);
    }
  }

  // ------------------------------------------------------------------ spellings of a digest

  function Unpadded(value: string): string {
    if value != [] && value[|value| - 1] == '=' then Unpadded(value[..|value| - 1]) else value
  }

  function Standard(c: char): char {
    if c == '-' then '+' else if c == '_' then '/' else c
  }

  function Respelled(value: string): (r: string)
    ensures |r| == |value| && forall i | 0 <= i < |r| :: r[i] == Standard(value[i])
  {
    seq(|value|, i requires 0 <= i < |value| => Standard(value[i]))
  }

  function NormalizeDigest(value: string): string {
    Respelled(Unpadded(value))
  }

  predicate Padding(s: string) {
    forall i | 0 <= i < |s| :: s[i] == '='
  }

  lemma {:induction false} PaddingIsDropped(value: string, padding: string)
    requires Padding(padding)
    ensures Unpadded(value + padding) == Unpadded(value)
    decreases |padding|
  {
    if padding == [] {
      assert value + padding == value;
    } else {
      var n := |padding| - 1;
      assert (value + padding)[..|value + padding| - 1] == value + padding[..n];
      PaddingIsDropped(value, padding[..n]);
    }
  }

  // ------------------------------------------------------------------ the bytes a digest stands for

  type Byte = n: nat | n < 256

  /** The base64 alphabet. */
  function Char64(n: nat): (c: char)
    requires n < 64
    ensures c != '=' && Standard(c) == c
  {
    if n < 26 then ('A' as int + n) as char
    else if n < 52 then ('a' as int + n - 26) as char
    else if n < 62 then ('0' as int + n - 52) as char
    else if n == 62 then '+' else '/'
  }

  lemma CharsDiffer(m: nat, n: nat)
    requires m < 64 && n < 64 && m != n
    ensures Char64(m) != Char64(n)
  {
  }

  /** Base64 without padding: six bits a character, the last of them made up with zeros. */
  function Encode64(bytes: seq<Byte>): (s: string)
    ensures forall i | 0 <= i < |s| :: s[i] != '=' && Standard(s[i]) == s[i]
  {
    if bytes == [] then []
    else if |bytes| == 1 then [Char64(bytes[0] / 4), Char64(bytes[0] % 4 * 16)]
    else if |bytes| == 2 then [Char64(bytes[0] / 4), Char64(bytes[0] % 4 * 16 + bytes[1] / 16), Char64(bytes[1] % 16 * 4)]
    else
      [Char64(bytes[0] / 4), Char64(bytes[0] % 4 * 16 + bytes[1] / 16), Char64(bytes[1] % 16 * 4 + bytes[2] / 64), Char64(bytes[2] % 64)]
        + Encode64(bytes[3..])
  }

  /** Padded to whole groups of four characters, as a digest that has been computed is written. */
  function Base64(bytes: seq<Byte>): string {
    Encode64(bytes) + match |bytes| % 3 case 0 => "" case 1 => "==" case _ => "="
  }

  lemma Encode64Length(bytes: seq<Byte>)
    ensures if |bytes| < 3 then |Encode64(bytes)| == (if bytes == [] then 0 else |bytes| + 1) else |Encode64(bytes)| >= 4
  {
  }

  lemma SameChar(m: nat, n: nat)
    requires m < 64 && n < 64 && Char64(m) == Char64(n)
    ensures m == n
  {
    if m != n { CharsDiffer(m, n); }
  }

  /** The first three bytes, from their four characters. */
  lemma GroupIsExact(a0: Byte, a1: Byte, a2: Byte, b0: Byte, b1: Byte, b2: Byte)
    requires Char64(a0 / 4) == Char64(b0 / 4) && Char64(a0 % 4 * 16 + a1 / 16) == Char64(b0 % 4 * 16 + b1 / 16)
    requires Char64(a1 % 16 * 4 + a2 / 64) == Char64(b1 % 16 * 4 + b2 / 64)
    ensures a0 == b0 && a1 == b1 && (Char64(a2 % 64) == Char64(b2 % 64) ==> a2 == b2)
  {
    hide Char64;
    SameChar(a0 / 4, b0 / 4);
    SameChar(a0 % 4 * 16 + a1 / 16, b0 % 4 * 16 + b1 / 16);
    SameChar(a1 % 16 * 4 + a2 / 64, b1 % 16 * 4 + b2 / 64);
    if Char64(a2 % 64) == Char64(b2 % 64) { SameChar(a2 % 64, b2 % 64); }
  }

  /** No two byte strings have one encoding. */
  lemma {:induction false} EncodingIsInjective(x: seq<Byte>, y: seq<Byte>)
    requires Encode64(x) == Encode64(y)
    ensures x == y
    decreases |x|
  {
    hide Char64;
    Encode64Length(x);
    Encode64Length(y);
    var s, t := Encode64(x), Encode64(y);
    if |x| == 1 {
      SameChar(x[0] / 4, y[0] / 4);
      SameChar(x[0] % 4 * 16, y[0] % 4 * 16);
    } else if |x| == 2 {
      assert s[0] == t[0] && s[1] == t[1] && s[2] == t[2];
      GroupIsExact(x[0], x[1], 0, y[0], y[1], 0);
    } else if |x| >= 3 {
      assert s[0] == t[0] && s[1] == t[1] && s[2] == t[2] && s[3] == t[3];
      GroupIsExact(x[0], x[1], x[2], y[0], y[1], y[2]);
      assert s[4..] == Encode64(x[3..]) && t[4..] == Encode64(y[3..]);
      EncodingIsInjective(x[3..], y[3..]);
      assert x == [x[0], x[1], x[2]] + x[3..] && y == [y[0], y[1], y[2]] + y[3..];
    }
  }

  /** The value writes these bytes in base64 or base64url, padded or not. */
  predicate Spells(value: string, bytes: seq<Byte>) {
    exists n | 0 <= n <= |value| :: Respelled(value[..n]) == Encode64(bytes) && Padding(value[n..])
  }

  lemma PlainStays(value: string)
    requires value != [] ==> value[|value| - 1] != '='
    ensures Unpadded(value) == value
  {
  }

  /** A value's normal form is the unpadded base64 of the bytes it spells, and of no others. */
  lemma SpellingIsNormal(value: string, bytes: seq<Byte>)
    ensures Spells(value, bytes) <==> NormalizeDigest(value) == Encode64(bytes)
  {
    if n :| 0 <= n <= |value| && Respelled(value[..n]) == Encode64(bytes) && Padding(value[n..]) {
      if n > 0 {
        assert Respelled(value[..n])[n - 1] == Standard(value[n - 1]);
        assert Encode64(bytes)[n - 1] != '=';
      }
      PlainStays(value[..n]);
      PaddingIsDropped(value[..n], value[n..]);
      assert value == value[..n] + value[n..];
    }
    if NormalizeDigest(value) == Encode64(bytes) {
      UnpaddedIsPrefix(value);
    }
  }

  lemma {:induction false} UnpaddedIsPrefix(value: string)
    ensures |Unpadded(value)| <= |value| && Unpadded(value) == value[..|Unpadded(value)|] && Padding(value[|Unpadded(value)|..])
    decreases |value|
  {
    if value != [] && value[|value| - 1] == '=' {
      var shorter := value[..|value| - 1];
      UnpaddedIsPrefix(shorter);
      var n := |Unpadded(shorter)|;
      assert value[n..] == shorter[n..] + "=";
    }
  }

  /** However two digests are spelled, base64 or base64url, padded or not, they normalize alike exactly if their bytes are the same. */
  lemma SpellingsAgree(a: string, b: string, x: seq<Byte>, y: seq<Byte>)
    requires Spells(a, x) && Spells(b, y)
    ensures NormalizeDigest(a) == NormalizeDigest(b) <==> x == y
  {
    hide Spells, NormalizeDigest, Encode64;
    SpellingIsNormal(a, x);
    SpellingIsNormal(b, y);
    if Encode64(x) == Encode64(y) { EncodingIsInjective(x, y); }
  }

  /** The body matches if any one of the digests written is the one it has. */
  predicate Matches(check: Check, actual: string) {
    exists i | 0 <= i < |check.values| :: NormalizeDigest(check.values[i]) == NormalizeDigest(actual)
  }

  /** A body whose digest has been computed matches exactly if one of the values spells it: what is not base64 matches nothing. */
  lemma MatchesExactly(check: Check, digest: seq<Byte>)
    ensures Matches(check, Base64(digest)) <==> exists i | 0 <= i < |check.values| :: Spells(check.values[i], digest)
  {
    hide Spells, NormalizeDigest, Encode64;
    Base64Spells(digest);
    SpellingIsNormal(Base64(digest), digest);
    forall i | 0 <= i < |check.values| ensures Spells(check.values[i], digest) <==> NormalizeDigest(check.values[i]) == Encode64(digest) {
      SpellingIsNormal(check.values[i], digest);
    }
  }

  lemma Base64Spells(bytes: seq<Byte>)
    ensures Spells(Base64(bytes), bytes)
  {
    var plain, value := Encode64(bytes), Base64(bytes);
    assert value[..|plain|] == plain && Respelled(plain) == plain;
    assert Padding(value[|plain|..]);
  }
}
