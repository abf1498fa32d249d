/**
 * `JSONDecoder.KeyDecodingStrategy.convertFromSnakeCase`, which the SDK's response decoder
 * sets (Sources/ContextKit/Network/APIClient.swift:111). Every key of a received object is
 * converted before it is matched against a type's coding keys:
 *   - leading and trailing underscores are kept;
 *   - a middle part without underscores is kept as it is;
 *   - otherwise the middle part is split at underscores, the first word is lower-cased,
 *     every later word is capitalised, and the words are joined.
 * Case mapping covers ASCII letters only.
 */
module SnakeCase {

  function Lower(c: char): (r: char)
    ensures c != '_' ==> r != '_'
  {
    if 'A' <= c <= 'Z' then (c as int + 32) as char else c
  }

  function Upper(c: char): (r: char)
    ensures c != '_' ==> r != '_'
  {
    if 'a' <= c <= 'z' then (c as int - 32) as char else c
  }

  function Lowercased(w: string): (r: string)
    ensures |r| == |w| && forall i :: 0 <= i < |w| ==> r[i] == Lower(w[i])
  {
    if |w| == 0 then "" else [Lower(w[0])] + Lowercased(w[1..])
  }

  /** `capitalized` on one word: the first letter upper case, the rest lower case. */
  function Capitalized(w: string): (r: string)
    ensures |r| == |w|
    ensures '_' !in w ==> '_' !in r
  {
    if |w| == 0 then "" else [Upper(w[0])] + Lowercased(w[1..])
  }

  /** The number of underscores `s` starts with. */
  function LeadingUnderscores(s: string): (n: nat)
    ensures n <= |s| && (forall i :: 0 <= i < n ==> s[i] == '_')
    ensures n < |s| ==> s[n] != '_'
  {
    if |s| == 0 || s[0] != '_' then 0 else 1 + LeadingUnderscores(s[1..])
  }

  /** The number of underscores `s` ends with. */
  function TrailingUnderscores(s: string): (n: nat)
    ensures n <= |s| && (forall i :: |s| - n <= i < |s| ==> s[i] == '_')
    ensures n < |s| ==> s[|s| - n - 1] != '_'
  {
    if |s| == 0 || s[|s| - 1] != '_' then 0 else 1 + TrailingUnderscores(s[..|s| - 1])
  }

  /** The longest prefix of `s` without an underscore. */
  function WordAt(s: string): (w: string)
    ensures |w| <= |s| && w == s[..|w|] && '_' !in w
    ensures |w| < |s| ==> s[|w|] == '_'
    ensures |s| > 0 && s[0] != '_' ==> |w| > 0
  {
    if |s| == 0 || s[0] == '_' then "" else [s[0]] + WordAt(s[1..])
  }

  /** `split(separator: "_")`: the words between underscores, without empty ones. */
  function Words(s: string): (ws: seq<string>)
    ensures forall i :: 0 <= i < |ws| ==> '_' !in ws[i]
    ensures |s| > 0 && s[0] != '_' ==> |ws| > 0
    decreases |s|
  {
    if |s| == 0 then []
    else if s[0] == '_' then Words(s[1..])
    else
      var w := WordAt(s);
      [w] + Words(s[|w|..])
  }

  /** The later words, each capitalised, joined. */
  function JoinCapitalized(ws: seq<string>): (r: string)
    requires forall i :: 0 <= i < |ws| ==> '_' !in ws[i]
    ensures '_' !in r
  {
    if |ws| == 0 then "" else Capitalized(ws[0]) + JoinCapitalized(ws[1..])
  }

  /**
   * The middle part of a key, which starts with a letter: kept as it is when it holds no
   * underscore (it splits into one word), otherwise lower-cased first word and capitalised
   * later words, joined.
   */
  function Joined(middle: string): (r: string)
    requires |middle| > 0 && middle[0] != '_'
    ensures '_' !in r
  {
    if '_' !in middle then middle
    else
      var words := Words(middle);
      Lowercased(words[0]) + JoinCapitalized(words[1..])
  }

  function ConvertFromSnakeCase(key: string): (r: string)
  {
    var lead := LeadingUnderscores(key);
    if lead == |key| then key
    else
      var trail := TrailingUnderscores(key[lead..]);
      key[..lead] + Joined(key[lead..|key| - trail]) + key[|key| - trail..]
  }

  /** A key without underscores is left as it is. */
  lemma PlainKeyUnchanged(key: string)
    requires '_' !in key
    ensures ConvertFromSnakeCase(key) == key
  {
    if |key| > 0 {
      assert key[0] != '_' && key[|key| - 1] != '_';
      assert TrailingUnderscores(key) == 0;
      assert key[0..|key| - 0] == key;
    }
  }

  /**
   * Underscores, then a part without any, then underscores: when the whole neither starts
   * nor ends with an underscore, both runs of underscores are empty.
   */
  lemma PaddedPartHasNoUnderscore(before: string, joined: string, after: string)
    requires forall i :: 0 <= i < |before| ==> before[i] == '_'
    requires forall i :: 0 <= i < |after| ==> after[i] == '_'
    requires '_' !in joined
    ensures var r := before + joined + after;
      (|r| > 0 && r[0] != '_' && r[|r| - 1] != '_') ==> '_' !in r
  {
    var r := before + joined + after;
    if |before| > 0 {
      assert r[0] == before[0];
    } else if |after| > 0 {
      assert r[|r| - 1] == after[|after| - 1];
    } else {
      assert r == joined;
    }
  }

  /**
   * A converted key that neither starts nor ends with an underscore holds none at all, so a
   * snake-case coding key such as "expected_impact" never matches any received key.
   */
  lemma ConvertedHasNoInnerUnderscore(key: string)
    ensures var r := ConvertFromSnakeCase(key);
      (|r| > 0 && r[0] != '_' && r[|r| - 1] != '_') ==> '_' !in r
  {
    var lead := LeadingUnderscores(key);
    if lead < |key| {
      var trail := TrailingUnderscores(key[lead..]);
      var before, after := key[..lead], key[|key| - trail..];
      assert forall i :: 0 <= i < |after| ==> after[i] == key[lead..][|key| - lead - trail + i];
      PaddedPartHasNoUnderscore(before, Joined(key[lead..|key| - trail]), after);
    }
  }

  /** A string without underscores is not "expected_impact". */
  lemma NotExpectedImpact(r: string)
    requires '_' !in r
    ensures r != "expected_impact"
  {
    var target := "expected_impact";
    assert target[8] == '_';
  }

  /** No received key converts to "expected_impact". */
  lemma NothingConvertsToExpectedImpact(key: string)
    ensures ConvertFromSnakeCase(key) != "expected_impact"
  {
    var r := ConvertFromSnakeCase(key);
    ConvertedHasNoInnerUnderscore(key);
    if |r| > 0 && r[0] != '_' && r[|r| - 1] != '_' {
      NotExpectedImpact(r);
    } else if |r| == 0 {
      assert |r| != |"expected_impact"|;
    } else if r[0] == '_' {
      assert r[0] != "expected_impact"[0];
    } else {
      assert r[|r| - 1] != "expected_impact"[14];
    }
  }

  /** The first word of a word followed by an underscore is that word. */
  lemma {:induction false} WordAtPrefix(w: string, rest: string)
    requires '_' !in w && |rest| > 0 && rest[0] == '_'
    ensures WordAt(w + rest) == w
  {
    if |w| > 0 {
      assert (w + rest)[1..] == w[1..] + rest;
      WordAtPrefix(w[1..], rest);
    } else {
      assert w + rest == rest;
    }
  }

  /** A word without underscores is its own first word. */
  lemma {:induction false} WordAtWhole(w: string)
    requires '_' !in w
    ensures WordAt(w) == w
  {
    if |w| > 0 {
      assert '_' !in w[1..] by {
        assert forall i :: 0 <= i < |w[1..]| ==> w[1..][i] == w[i + 1];
      }
      WordAtWhole(w[1..]);
      assert [w[0]] + w[1..] == w;
    }
  }

  /** A single word splits into itself. */
  lemma WordsOfWord(w: string)
    requires |w| > 0 && '_' !in w
    ensures Words(w) == [w]
  {
    WordAtWhole(w);
    assert w[|w|..] == [];
    assert Words(w) == [w] + Words([]);
  }

  /** A key that neither starts nor ends with an underscore is converted as a whole middle part. */
  lemma ConvertInner(key: string)
    requires |key| > 0 && key[0] != '_' && key[|key| - 1] != '_'
    ensures ConvertFromSnakeCase(key) == Joined(key)
  {
    assert LeadingUnderscores(key) == 0;
    assert key[0..] == key;
    assert TrailingUnderscores(key) == 0;
    assert key[0..|key| - 0] == key && key[..0] == [] && key[|key| - 0..] == [];
  }

  /** Splitting a string that starts with a word: that word, then the words of the rest. */
  lemma WordsStep(s: string)
    requires |s| > 0 && s[0] != '_'
    ensures Words(s) == [WordAt(s)] + Words(s[|WordAt(s)|..])
  {
  }

  /** Splitting a string that starts with an underscore skips it. */
  lemma WordsSkip(s: string)
    requires |s| > 0 && s[0] == '_'
    ensures Words(s) == Words(s[1..])
  {
  }

  /** Two words joined by an underscore split back into the two words. */
  lemma WordsOfTwo(a: string, b: string)
    requires |a| > 0 && |b| > 0 && '_' !in a && '_' !in b
    ensures Words(a + "_" + b) == [a, b]
  {
    var rest := "_" + b;
    var k := a + rest;
    assert a + "_" + b == k;
    assert k[0] == a[0] && a[0] in a;
    WordAtPrefix(a, rest);
    assert k[|a|..] == rest;
    WordsStep(k);
    assert rest[0] == '_' && rest[1..] == b;
    WordsSkip(rest);
    WordsOfWord(b);
  }

  /** The middle part of two joined words is the first lower-cased and the second capitalised. */
  lemma JoinedOfTwo(a: string, b: string)
    requires |a| > 0 && |b| > 0 && '_' !in a && '_' !in b
    ensures Joined(a + "_" + b) == Lowercased(a) + Capitalized(b)
  {
    var k := a + "_" + b;
    assert k[0] == a[0] && a[0] in a;
    assert k[|a|] == '_' && '_' in k;
    var ws := Words(k);
    assert Joined(k) == Lowercased(ws[0]) + JoinCapitalized(ws[1..]);
    WordsOfTwo(a, b);
    assert ws[0] == a && ws[1..] == [b];
    var tail := JoinCapitalized([b]);
    assert tail == Capitalized(b) + JoinCapitalized([]);
    assert tail == Capitalized(b);
  }

  /** Two words joined by an underscore become the first lower-cased and the second capitalised. */
  lemma TwoWords(a: string, b: string)
    requires |a| > 0 && |b| > 0 && '_' !in a && '_' !in b
    ensures ConvertFromSnakeCase(a + "_" + b) == Lowercased(a) + Capitalized(b)
  {
    var k := a + "_" + b;
    assert k[0] == a[0] && a[0] in a;
    assert k[|k| - 1] == b[|b| - 1] && b[|b| - 1] in b;
    ConvertInner(k);
    JoinedOfTwo(a, b);
  }
}
