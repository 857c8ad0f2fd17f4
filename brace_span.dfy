/**
 * The brace-span extractor that both the evaluate route and the client page
 * apply to the model's text: `text.match(/\{[\s\S]*\}/)`.
 *
 * The regular expression is matched the way JavaScript's `exec` does it: the
 * leftmost start position at which a match exists wins, and the greedy
 * `[\s\S]*` makes the match at that position as long as possible.
 */
module BraceSpan {
  import opened Wrappers

  /** Index of the first `c` in `s`, or `|s|` when there is none. */
  function FirstIndex(s: string, c: char): (i: nat)
    ensures i <= |s|
    ensures i < |s| ==> s[i] == c
    ensures forall k :: 0 <= k < i ==> s[k] != c
    ensures i == |s| <==> c !in s
  {
    if |s| == 0 then 0
    else if s[0] == c then 0
    else 1 + FirstIndex(s[1..], c)
  }

  /** Index of the last `c` in `s`, or -1 when there is none. */
  function LastIndex(s: string, c: char): (j: int)
    ensures -1 <= j < |s|
    ensures 0 <= j ==> s[j] == c
    ensures forall k :: j < k < |s| ==> s[k] != c
    ensures j == -1 <==> c !in s
  {
    if |s| == 0 then -1
    else if s[|s| - 1] == c then |s| - 1
    else LastIndex(s[..|s| - 1], c)
  }

  /** The text holds a `{` with a `}` somewhere after it. */
  ghost predicate ContainsBracePair(text: string)
  {
    exists a, b :: 0 <= a < b < |text| && text[a] == '{' && text[b] == '}'
  }

  /** `text[i..k]` is a match of `\{[\s\S]*\}`. */
  ghost predicate IsMatch(text: string, i: int, k: int)
  {
    0 <= i && i + 2 <= k <= |text| && text[i] == '{' && text[k - 1] == '}'
  }

  /**
   * The first match of `/\{[\s\S]*\}/` in `text`: from the first `{` to the
   * last `}` inclusive, or nothing when no `}` follows the first `{`.
   */
  function ExtractBraceSpan(text: string): (r: Option<string>)
    ensures r.Some? <==> ContainsBracePair(text)
    ensures r.Some? ==> |r.value| >= 2 && r.value[0] == '{' && r.value[|r.value| - 1] == '}'
  {
    var i := FirstIndex(text, '{');
    var j := LastIndex(text, '}');
    if i < j then Some(text[i..j + 1]) else None
  }

  /**
   * Agreement with the regular expression's semantics: the result is the
   * leftmost match, and the longest one at that position; there is no result
   * exactly when no match exists anywhere.
   */
  lemma ExtractIsLeftmostLongestMatch(text: string)
    ensures ExtractBraceSpan(text).None? <==> forall i, k :: !IsMatch(text, i, k)
    ensures ExtractBraceSpan(text).Some? ==>
      exists i, k :: IsMatch(text, i, k) && ExtractBraceSpan(text).value == text[i..k]
        && (forall i', k' :: IsMatch(text, i', k') ==> i <= i')
        && (forall k' :: IsMatch(text, i, k') ==> k' <= k)
  {
    var i := FirstIndex(text, '{');
    var j := LastIndex(text, '}');
    if i < j {
      assert IsMatch(text, i, j + 1);
      forall i', k' | IsMatch(text, i', k') ensures i <= i' && k' <= j + 1 {
        assert text[i'] == '{' && text[k' - 1] == '}';
      }
    } else {
      forall i', k' ensures !IsMatch(text, i', k') {
        if 0 <= i' && i' + 2 <= k' <= |text| && text[i'] == '{' {
          assert text[k' - 1] != '}';
        }
      }
    }
  }

  /**
   * A found span begins at the first `{` of the text; what lies before it
   * holds no `{` and what lies after it holds no `}`, so nothing outside the
   * span could have extended it.
   */
  lemma SpanSplitsText(text: string)
    requires ExtractBraceSpan(text).Some?
    ensures var i, span := FirstIndex(text, '{'), ExtractBraceSpan(text).value;
      i + |span| <= |text| && text[i..i + |span|] == span
      && '{' !in text[..i] && '}' !in text[i + |span|..]
  {
    var i := FirstIndex(text, '{');
    var j := LastIndex(text, '}');
    assert '{' !in text[..i] by {
      forall k | 0 <= k < i ensures text[..i][k] != '{' { }
    }
    var post := text[j + 1..];
    assert '}' !in post by {
      forall k | 0 <= k < |post| ensures post[k] != '}' { assert post[k] == text[j + 1 + k]; }
    }
  }

  /** A text that already starts with `{` and ends with `}` is its own span. */
  lemma BracedTextIsItsOwnSpan(t: string)
    requires |t| >= 2 && t[0] == '{' && t[|t| - 1] == '}'
    ensures ExtractBraceSpan(t) == Some(t)
  {
    assert FirstIndex(t, '{') == 0;
    assert LastIndex(t, '}') == |t| - 1;
    assert t[0..|t|] == t;
  }

  /** Extraction is idempotent: extracting again from a span gives the span. */
  lemma ExtractIdempotent(text: string)
    requires ExtractBraceSpan(text).Some?
    ensures ExtractBraceSpan(ExtractBraceSpan(text).value) == ExtractBraceSpan(text)
  {
    BracedTextIsItsOwnSpan(ExtractBraceSpan(text).value);
  }
}
