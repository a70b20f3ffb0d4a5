/**
 * Well-formedness of MQTT topic names and topic filters, after section 4.7
 * of MQTT Version 3.1.1: '/' separates levels, '+' is the single-level
 * wildcard and must fill a whole level, '#' is the multi-level wildcard and
 * must be the last character, alone or after a '/'. Topic names carry no
 * wildcard at all. Neither may be empty, contain U+0000, or take more than
 * 65535 bytes in UTF-8 (section 4.7.3).
 */
module Mqtt {
  import opened Strings

  /** The largest number of UTF-8 bytes a topic may take. */
  const MaxTopicBytes: int := 65535

  /** The number of bytes UTF-8 encodes `c` in. */
  function CharBytes(c: char): (n: nat)
    ensures 1 <= n <= 4
  {
    if c as int < 0x80 then 1
    else if c as int < 0x800 then 2
    else if c as int < 0x1_0000 then 3
    else 4
  }

  /** The length of `s` in UTF-8. */
  function Utf8Length(s: string): nat
    decreases |s|
  {
    if s == [] then 0 else CharBytes(s[0]) + Utf8Length(s[1..])
  }

  predicate Ascii(s: string) {
    forall i :: 0 <= i < |s| ==> s[i] as int < 0x80
  }

  lemma {:induction false} Utf8LengthConcat(a: string, b: string)
    ensures Utf8Length(a + b) == Utf8Length(a) + Utf8Length(b)
    decreases |a|
  {
    if a == [] {
      assert a + b == b;
    } else {
      assert (a + b)[1..] == a[1..] + b;
      Utf8LengthConcat(a[1..], b);
    }
  }

  /** ASCII text takes one byte per character. */
  lemma {:induction false} AsciiUtf8Length(s: string)
    requires Ascii(s)
    ensures Utf8Length(s) == |s|
    decreases |s|
  {
    if s != [] {
      AsciiUtf8Length(s[1..]);
    }
  }

  /** No character of `s` is a wildcard or the null character. */
  predicate PlainText(s: string) {
    !Contains(s, '#') && !Contains(s, '+') && !Contains(s, '\0')
  }

  /** A topic name a client may publish to (sections 4.7.1 and 4.7.3). */
  predicate ValidTopicName(s: string) {
    |s| > 0 && Utf8Length(s) <= MaxTopicBytes && PlainText(s)
  }

  /** `s[i]`, if it is a wildcard, is placed as section 4.7.1 demands. */
  predicate WildcardPlaced(s: string, i: int)
    requires 0 <= i < |s|
  {
    && (s[i] == '#' ==> i == |s| - 1 && (i == 0 || s[i - 1] == '/'))
    && (s[i] == '+' ==> (i == 0 || s[i - 1] == '/') && (i == |s| - 1 || s[i + 1] == '/'))
  }

  /** Non-empty, no null character, every wildcard in its place. */
  predicate FilterShape(s: string) {
    && |s| > 0
    && !Contains(s, '\0')
    && forall i :: 0 <= i < |s| ==> WildcardPlaced(s, i)
  }

  /** A topic filter a client may subscribe to (sections 4.7.1 and 4.7.3). */
  predicate ValidTopicFilter(s: string) {
    FilterShape(s) && Utf8Length(s) <= MaxTopicBytes
  }

  lemma PlainTextConcat(a: string, b: string, e: string)
    ensures PlainText(a + b + e) <==> PlainText(a) && PlainText(b) && PlainText(e)
  {
    ContainsConcat(a, b, '#');
    ContainsConcat(a + b, e, '#');
    ContainsConcat(a, b, '+');
    ContainsConcat(a + b, e, '+');
    ContainsConcat(a, b, '\0');
    ContainsConcat(a + b, e, '\0');
  }

  /** Plain text followed by a filter that starts a new level is a filter, if it fits. */
  lemma FilterAfterPlainText(x: string, y: string)
    requires PlainText(x) && FilterShape(y) && y[0] == '/'
    ensures FilterShape(x + y)
    ensures ValidTopicFilter(x + y) <==> Utf8Length(x) + Utf8Length(y) <= MaxTopicBytes
  {
    var c := x + y;
    Utf8LengthConcat(x, y);
    assert !Contains(c, '\0') by {
      ContainsConcat(x, y, '\0');
    }
    forall i | 0 <= i < |c| ensures WildcardPlaced(c, i) {
      if i < |x| {
        assert c[i] == x[i];
      } else {
        assert WildcardPlaced(y, i - |x|);
      }
    }
  }
}
