/** The whitespace rewrite in `getRuntime` (plugin.js:14):
    `src.replace(/[\s]+/g, ' ')` turns every maximal run of whitespace into a
    single space. */
module Whitespace {

  /** JavaScript's `\s`: the ECMAScript WhiteSpace and LineTerminator code
      points. */
  predicate IsSpace(c: char) {
    || c == '\t' || c == '\n' || c == '\U{000B}' || c == '\U{000C}' || c == '\r' || c == ' '
    || c == '\U{00A0}' || c == '\U{1680}' || ('\U{2000}' <= c <= '\U{200A}')
    || c == '\U{2028}' || c == '\U{2029}' || c == '\U{202F}' || c == '\U{205F}'
    || c == '\U{3000}' || c == '\U{FEFF}'
  }

  /** The text after the whitespace run that `s` starts with. */
  function SkipSpaces(s: string): (r: string)
    ensures |r| <= |s|
    ensures r == [] || !IsSpace(r[0])
  {
    if s != [] && IsSpace(s[0]) then SkipSpaces(s[1..]) else s
  }

  /** `s` with every maximal whitespace run replaced by one space. Every
      whitespace character left in the result is a plain space, and the
      result is empty exactly when `s` is. */
  function Collapse(s: string): (r: string)
    ensures r == [] <==> s == []
    ensures forall i :: 0 <= i < |r| && IsSpace(r[i]) ==> r[i] == ' '
    ensures |r| <= |s|
    decreases |s|
  {
    if s == [] then []
    else if IsSpace(s[0]) then " " + Collapse(SkipSpaces(s[1..]))
    else [s[0]] + Collapse(s[1..])
  }

  /** No two whitespace characters are adjacent, and whitespace is only ever
      a plain space: the shape the rewrite produces. */
  predicate Compact(s: string) {
    && (forall i :: 0 <= i < |s| && IsSpace(s[i]) ==> s[i] == ' ')
    && (forall i :: 0 <= i < |s| - 1 ==> !(IsSpace(s[i]) && IsSpace(s[i + 1])))
  }

  /** The non-whitespace characters of `s`, in order. */
  function Visible(s: string): (r: string)
    ensures |r| <= |s|
    ensures forall i :: 0 <= i < |r| ==> !IsSpace(r[i])
  {
    if s == [] then []
    else if IsSpace(s[0]) then Visible(s[1..])
    else [s[0]] + Visible(s[1..])
  }

  lemma {:induction false} CollapseFirst(s: string)
    requires s != []
    ensures Collapse(s)[0] == if IsSpace(s[0]) then ' ' else s[0]
  {
  }

  /** The rewrite leaves no two whitespace characters side by side. */
  lemma {:induction false} CollapseIsCompact(s: string)
    ensures Compact(Collapse(s))
    decreases |s|
  {
    if s == [] {
    } else if IsSpace(s[0]) {
      var t := SkipSpaces(s[1..]);
      CollapseIsCompact(t);
      if t != [] {
        CollapseFirst(t);
      }
      assert Collapse(s) == " " + Collapse(t);
    } else {
      CollapseIsCompact(s[1..]);
      assert Collapse(s) == [s[0]] + Collapse(s[1..]);
    }
  }

  /** The rewrite keeps every non-whitespace character, in order, and adds
      none. */
  lemma {:induction false} CollapseKeepsVisible(s: string)
    ensures Visible(Collapse(s)) == Visible(s)
    decreases |s|
  {
    if s == [] {
    } else if IsSpace(s[0]) {
      var t := SkipSpaces(s[1..]);
      CollapseKeepsVisible(t);
      VisibleSkipsSpaces(s[1..]);
      assert (" " + Collapse(t))[1..] == Collapse(t);
    } else {
      CollapseKeepsVisible(s[1..]);
      assert ([s[0]] + Collapse(s[1..]))[1..] == Collapse(s[1..]);
    }
  }

  lemma {:induction false} VisibleSkipsSpaces(s: string)
    ensures Visible(SkipSpaces(s)) == Visible(s)
    decreases |s|
  {
    if s != [] && IsSpace(s[0]) {
      VisibleSkipsSpaces(s[1..]);
    }
  }

  /** Text that is already compact is left as it is. */
  lemma {:induction false} CollapseOfCompact(s: string)
    requires Compact(s)
    ensures Collapse(s) == s
    decreases |s|
  {
    if s != [] {
      assert Compact(s[1..]) by {
        assert forall i :: 0 <= i < |s[1..]| ==> s[1..][i] == s[i + 1];
      }
      CollapseOfCompact(s[1..]);
      if IsSpace(s[0]) {
        assert s[1..] == [] || !IsSpace(s[1]);
        assert SkipSpaces(s[1..]) == s[1..];
        assert s == " " + s[1..];
      } else {
        assert s == [s[0]] + s[1..];
      }
    }
  }

  /** Text that ends in a visible character is rewritten independently of
      whatever follows it. */
  lemma {:induction false} CollapseSplit(x: string, r: string)
    requires x == [] || !IsSpace(x[|x| - 1])
    ensures Collapse(x + r) == Collapse(x) + Collapse(r)
    decreases |x|
  {
    if x == [] {
      assert x + r == r;
    } else {
      var s := x + r;
      var tail := x[1..];
      assert s[0] == x[0] && s[1..] == tail + r;
      if IsSpace(x[0]) {
        assert tail != [] && tail[|tail| - 1] == x[|x| - 1];
        var x' := SkipSpaces(tail);
        SkipSpacesAppend(tail, r);
        CollapseSplit(x', r);
        assert Collapse(s) == " " + (Collapse(x') + Collapse(r));
      } else {
        CollapseSplit(tail, r);
        assert Collapse(s) == [x[0]] + (Collapse(tail) + Collapse(r));
      }
    }
  }

  /** A maximal whitespace run between two pieces of text becomes exactly
      one space, and each piece is rewritten on its own. */
  lemma {:induction false} CollapseRun(x: string, w: string, y: string)
    requires x == [] || !IsSpace(x[|x| - 1])
    requires w != [] && forall i :: 0 <= i < |w| ==> IsSpace(w[i])
    requires y == [] || !IsSpace(y[0])
    ensures Collapse(x + w + y) == Collapse(x) + (" " + Collapse(y))
  {
    var r := w + y;
    assert IsSpace(r[0]) by {
      assert r[0] == w[0];
    }
    assert r[1..] == w[1..] + y;
    SkipAllSpaces(w[1..], y);
    assert Collapse(r) == " " + Collapse(y);
    CollapseSplit(x, r);
    assert x + w + y == x + r;
  }

  lemma {:induction false} SkipAllSpaces(w: string, y: string)
    requires forall i :: 0 <= i < |w| ==> IsSpace(w[i])
    requires y == [] || !IsSpace(y[0])
    ensures SkipSpaces(w + y) == y
    decreases |w|
  {
    if w != [] {
      assert (w + y)[1..] == w[1..] + y;
      SkipAllSpaces(w[1..], y);
    }
  }

  lemma {:induction false} SkipSpacesAppend(a: string, b: string)
    requires a != [] && !IsSpace(a[|a| - 1])
    ensures SkipSpaces(a + b) == SkipSpaces(a) + b
    ensures SkipSpaces(a) != [] && !IsSpace(SkipSpaces(a)[|SkipSpaces(a)| - 1])
    decreases |a|
  {
    if IsSpace(a[0]) {
      assert (a + b)[1..] == a[1..] + b;
      SkipSpacesAppend(a[1..], b);
    }
  }

  /** The rewrite changes nothing exactly when its input is compact, so
      applying it twice is the same as applying it once. */
  lemma {:induction false} CollapseFixpoints(s: string)
    ensures Collapse(s) == s <==> Compact(s)
    ensures Collapse(Collapse(s)) == Collapse(s)
  {
    CollapseIsCompact(s);
    if Compact(s) {
      CollapseOfCompact(s);
    }
    CollapseOfCompact(Collapse(s));
  }
}
