/** HTML escaping as used for every free-text value of a tooltip.

    The view passes each value through Django's `escape`, which is Python's
    `html.escape(str(value), quote=True)`: the five markup characters are
    replaced by character references and every other character is kept. */
module Html {

  /** The characters that could open a tag or close an attribute value. */
  predicate IsMarkup(c: char) {
    c == '<' || c == '>' || c == '"' || c == '\''
  }

  /** The replacement of one character. */
  function EscapeChar(c: char): (r: string)
    ensures |r| >= 1
    ensures forall k :: 0 <= k < |r| ==> !IsMarkup(r[k])
    ensures c != '&' && !IsMarkup(c) ==> r == [c]
  {
    if c == '&' then "&amp;"
    else if c == '<' then "&lt;"
    else if c == '>' then "&gt;"
    else if c == '"' then "&quot;"
    else if c == '\'' then "&#x27;"
    else [c]
  }

  /** Django's `escape`: no markup character survives, and nothing is dropped. */
  function Escape(s: string): (r: string)
    ensures forall k :: 0 <= k < |r| ==> !IsMarkup(r[k])
    ensures |r| >= |s|
    ensures (forall k :: 0 <= k < |s| ==> s[k] != '&' && !IsMarkup(s[k])) ==> r == s
  {
    if s == [] then [] else EscapeChar(s[0]) + Escape(s[1..])
  }

  /** The inverse of `Escape`: decodes the five character references it emits
      and keeps every other character. */
  function Unescape(s: string): string
    decreases |s|
  {
    if s == [] then []
    else if |s| >= 5 && s[..5] == "&amp;" then "&" + Unescape(s[5..])
    else if |s| >= 4 && s[..4] == "&lt;" then "<" + Unescape(s[4..])
    else if |s| >= 4 && s[..4] == "&gt;" then ">" + Unescape(s[4..])
    else if |s| >= 6 && s[..6] == "&quot;" then "\"" + Unescape(s[6..])
    else if |s| >= 6 && s[..6] == "&#x27;" then "'" + Unescape(s[6..])
    else [s[0]] + Unescape(s[1..])
  }

  /** Escaping distributes over concatenation, so a value built from pieces
      is escaped piece by piece. */
  lemma {:induction false} EscapeAppend(a: string, b: string)
    ensures Escape(a + b) == Escape(a) + Escape(b)
  {
    if a == [] {
      assert a + b == b;
    } else {
      assert (a + b)[0] == a[0] && (a + b)[1..] == a[1..] + b;
      EscapeAppend(a[1..], b);
      calc {
        Escape(a + b);
        EscapeChar(a[0]) + Escape(a[1..] + b);
        EscapeChar(a[0]) + (Escape(a[1..]) + Escape(b));
        (EscapeChar(a[0]) + Escape(a[1..])) + Escape(b);
        Escape(a) + Escape(b);
      }
    }
  }

  /** A plain prefix (no markup, no ampersand) passes through unchanged. */
  lemma EscapePlainPrefix(prefix: string, rest: string)
    requires forall k :: 0 <= k < |prefix| ==> prefix[k] != '&' && !IsMarkup(prefix[k])
    ensures Escape(prefix + rest) == prefix + Escape(rest)
  {
    EscapeAppend(prefix, rest);
  }

  /** A character reference is decoded to the character it stands for. */
  lemma UnescapeReference(c: char, rest: string)
    requires c == '&' || IsMarkup(c)
    ensures Unescape(EscapeChar(c) + rest) == [c] + Unescape(rest)
  {
    var e := EscapeChar(c) + rest;
    if c == '&' {
      assert e[..5] == "&amp;" && e[5..] == rest;
    } else if c == '<' {
      assert e[1] == 'l' && e[..4] == "&lt;" && e[4..] == rest;
    } else if c == '>' {
      assert e[1] == 'g' && e[..4] == "&gt;" && e[4..] == rest;
    } else if c == '"' {
      assert e[1] == 'q' && e[..6] == "&quot;" && e[6..] == rest;
    } else {
      assert e[1] == '#' && e[..6] == "&#x27;" && e[6..] == rest;
    }
  }

  /** Decoding one escaped character followed by anything decodes that
      character first. */
  lemma UnescapeEscapeChar(c: char, rest: string)
    ensures Unescape(EscapeChar(c) + rest) == [c] + Unescape(rest)
  {
    if c == '&' || IsMarkup(c) {
      UnescapeReference(c, rest);
    } else {
      var e := [c] + rest;
      assert e[0] == c && e[1..] == rest;
      assert |e| >= 4 ==> e[..4][0] == c;
      assert |e| >= 5 ==> e[..5][0] == c;
      assert |e| >= 6 ==> e[..6][0] == c;
    }
  }

  /** Escaping loses no information: the original text can be recovered. */
  lemma {:induction false} UnescapeEscape(s: string)
    ensures Unescape(Escape(s)) == s
  {
    if s != [] {
      UnescapeEscapeChar(s[0], Escape(s[1..]));
      UnescapeEscape(s[1..]);
      assert [s[0]] + s[1..] == s;
    }
  }

  /** Two different texts never escape to the same markup. */
  lemma EscapeInjective(s: string, t: string)
    requires Escape(s) == Escape(t)
    ensures s == t
  {
    UnescapeEscape(s);
    UnescapeEscape(t);
  }
}
