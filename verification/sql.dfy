/**
 * The query builder's vocabulary: a parameterised statement (text plus the
 * ordered values bound to its `?` placeholders), the clause fragments the
 * handlers append, the JavaScript string slice used to trim a trailing
 * separator, and placeholder counting.
 */
module Sql {
  import opened Wrappers

  /** A value handed to the driver for one placeholder; `None` is `undefined`, bound as NULL. */
  type Param = Option<string>

  /** A statement as the handlers pass it to the driver: its text and its parameter list. */
  datatype Statement = Statement(text: string, params: seq<Param>)

  /** A clause fragment of statement text together with the value bound to its placeholder. */
  datatype Binding = Binding(fragment: string, value: Param)

  /** The number of `?` placeholders in a statement text. */
  function Placeholders(s: string): nat {
    multiset(s)['?']
  }

  /** A statement binds exactly one value per placeholder. */
  predicate WellBound(st: Statement) {
    Placeholders(st.text) == |st.params|
  }

  /** Every fragment carries exactly one placeholder. */
  predicate OnePlaceholderEach(bs: seq<Binding>) {
    forall i :: 0 <= i < |bs| ==> Placeholders(bs[i].fragment) == 1
  }

  /** The fragments one after another, as repeated `query += fragment` leaves them. */
  function Render(bs: seq<Binding>): string {
    if bs == [] then "" else Render(bs[..|bs| - 1]) + bs[|bs| - 1].fragment
  }

  /** The values in the order the fragments were appended, as repeated `params.push(value)` leaves them. */
  function Values(bs: seq<Binding>): (vs: seq<Param>)
    ensures |vs| == |bs|
    ensures forall i :: 0 <= i < |bs| ==> vs[i] == bs[i].value
  {
    if bs == [] then [] else Values(bs[..|bs| - 1]) + [bs[|bs| - 1].value]
  }

  /** The bindings with one more appended when the condition holds: a guarded `+=` and `push`. */
  function AppendIf(bs: seq<Binding>, cond: bool, b: Binding): seq<Binding> {
    if cond then bs + [b] else bs
  }

  /** The text a guarded append contributes: the fragment when the condition holds, nothing otherwise. */
  function Emitted(cond: bool, b: Binding): string {
    if cond then b.fragment else ""
  }

  /** A guarded append adds the fragment to the text, or nothing ... */
  lemma RenderAppendIf(bs: seq<Binding>, cond: bool, b: Binding)
    ensures Render(AppendIf(bs, cond, b)) == Render(bs) + Emitted(cond, b)
  {
    if cond {
      assert (bs + [b])[..|bs|] == bs;
    } else {
      assert Render(bs) + "" == Render(bs);
    }
  }

  /** Four guarded appends render as the four contributions in order. */
  lemma RenderFour(c0: bool, b0: Binding, c1: bool, b1: Binding, c2: bool, b2: Binding, c3: bool, b3: Binding)
    ensures Render(AppendIf(AppendIf(AppendIf(AppendIf([], c0, b0), c1, b1), c2, b2), c3, b3)) ==
      Emitted(c0, b0) + Emitted(c1, b1) + Emitted(c2, b2) + Emitted(c3, b3)
  {
    var s1 := AppendIf([], c0, b0);
    var s2 := AppendIf(s1, c1, b1);
    var s3 := AppendIf(s2, c2, b2);
    var e0, e1, e2, e3 := Emitted(c0, b0), Emitted(c1, b1), Emitted(c2, b2), Emitted(c3, b3);
    RenderAppendIf([], c0, b0);
    assert Render(s1) == e0;
    RenderAppendIf(s1, c1, b1);
    assert Render(s2) == e0 + e1;
    RenderAppendIf(s2, c2, b2);
    assert Render(s3) == e0 + e1 + e2;
    RenderAppendIf(s3, c3, b3);
  }

  /** ... and adds the value to the parameters, or nothing. */
  lemma ValuesAppendIf(bs: seq<Binding>, cond: bool, b: Binding)
    ensures Values(AppendIf(bs, cond, b)) == if cond then Values(bs) + [b.value] else Values(bs)
  {
    if cond {
      assert (bs + [b])[..|bs|] == bs;
    }
  }

  /** Each fragment followed by the separator, the last one included. */
  function Terminated(bs: seq<Binding>, sep: string): string {
    if bs == [] then "" else Terminated(bs[..|bs| - 1], sep) + bs[|bs| - 1].fragment + sep
  }

  /** The fragments with the separator between neighbours only. */
  function Join(bs: seq<Binding>, sep: string): string {
    if bs == [] then ""
    else if |bs| == 1 then bs[0].fragment
    else Join(bs[..|bs| - 1], sep) + sep + bs[|bs| - 1].fragment
  }

  /**
   * JavaScript `s.slice(0, -k)` for a positive k: everything but the last k
   * characters, and the empty string when s is shorter than k.
   */
  function SliceOffEnd(s: string, k: nat): (r: string)
    requires k > 0
    ensures |s| >= k ==> |r| == |s| - k
    ensures |s| < k ==> r == ""
    ensures r <= s
  {
    if |s| >= k then s[..|s| - k] else ""
  }

  /** Four bindings' values, in order. */
  lemma ValuesOfFour(b0: Binding, b1: Binding, b2: Binding, b3: Binding)
    ensures Values([b0, b1, b2, b3]) == [b0.value, b1.value, b2.value, b3.value]
  {
  }

  /** Appending a fragment to a prefixed rendering is appending it to the rendering. */
  lemma AppendFragment(prefix: string, rendered: string, fragment: string)
    ensures prefix + rendered + fragment == prefix + (rendered + fragment)
  {
  }

  /** Placeholders of concatenated text add up. */
  lemma PlaceholdersAppend(a: string, b: string)
    ensures Placeholders(a + b) == Placeholders(a) + Placeholders(b)
  {
    assert multiset(a + b) == multiset(a) + multiset(b);
  }

  /** Text without a `?` has no placeholder. */
  lemma NoPlaceholder(s: string)
    requires '?' !in s
    ensures Placeholders(s) == 0
  {
  }

  /** Text ending in its only `?`, like `status = ?`, has exactly one placeholder. */
  lemma PlaceholderAtEnd(s: string)
    requires s != [] && s[|s| - 1] == '?' && '?' !in s[..|s| - 1]
    ensures Placeholders(s) == 1
  {
    assert s == s[..|s| - 1] + [s[|s| - 1]];
    NoPlaceholder(s[..|s| - 1]);
    PlaceholdersAppend(s[..|s| - 1], [s[|s| - 1]]);
  }

  /** A guarded append keeps every fragment at one placeholder when the new one has one. */
  lemma AppendIfOnePlaceholder(bs: seq<Binding>, cond: bool, b: Binding)
    requires OnePlaceholderEach(bs) && Placeholders(b.fragment) == 1
    ensures OnePlaceholderEach(AppendIf(bs, cond, b))
  {
    if cond {
      var r := bs + [b];
      assert AppendIf(bs, cond, b) == r;
      forall i | 0 <= i < |r| ensures Placeholders(r[i].fragment) == 1 {
        if i < |bs| { assert r[i] == bs[i]; }
      }
    }
  }

  /** `text += fragment + sep` on a prefixed termination terminates one more binding. */
  lemma TerminatedSnoc(prefix: string, bs: seq<Binding>, b: Binding, sep: string, piece: string)
    requires piece == b.fragment + sep
    ensures prefix + Terminated(bs + [b], sep) == prefix + Terminated(bs, sep) + piece
  {
    assert (bs + [b])[..|bs|] == bs;
  }

  /** Appending a binding appends its value to the parameters. */
  lemma ValuesSnoc(bs: seq<Binding>, b: Binding)
    ensures Values(bs + [b]) == Values(bs) + [b.value]
  {
    assert (bs + [b])[..|bs|] == bs;
  }

  /** Nothing terminated after a prefix leaves the prefix. */
  lemma EmptyTerminated(prefix: string, sep: string)
    ensures prefix + Terminated([], sep) == prefix
  {
    assert Terminated([], sep) == "";
  }

  /** Slicing the last separator off a non-empty termination leaves the joined fragments. */
  lemma TrimTerminated(prefix: string, bs: seq<Binding>, sep: string)
    requires bs != [] && |sep| > 0
    ensures SliceOffEnd(prefix + Terminated(bs, sep), |sep|) == prefix + Join(bs, sep)
  {
    TerminatedIsJoined(bs, sep);
    assert prefix + Terminated(bs, sep) == (prefix + Join(bs, sep)) + sep;
    SliceOffSuffix(prefix + Join(bs, sep), sep);
  }

  /** Rendering one-placeholder fragments gives as many placeholders as there are values. */
  lemma {:induction false} RenderPlaceholders(bs: seq<Binding>)
    requires OnePlaceholderEach(bs)
    ensures Placeholders(Render(bs)) == |Values(bs)|
  {
    if bs != [] {
      RenderPlaceholders(bs[..|bs| - 1]);
    }
  }

  /** Joining one-placeholder fragments with a separator free of `?` gives one placeholder per value. */
  lemma {:induction false} JoinPlaceholders(bs: seq<Binding>, sep: string)
    requires OnePlaceholderEach(bs)
    requires '?' !in sep
    ensures Placeholders(Join(bs, sep)) == |Values(bs)|
  {
    if |bs| > 1 {
      var init := bs[..|bs| - 1];
      JoinPlaceholders(init, sep);
      NoPlaceholder(sep);
    }
  }

  /** Terminating every fragment is joining them and then terminating once. */
  lemma {:induction false} TerminatedIsJoined(bs: seq<Binding>, sep: string)
    requires bs != []
    ensures Terminated(bs, sep) == Join(bs, sep) + sep
  {
    if |bs| > 1 {
      TerminatedIsJoined(bs[..|bs| - 1], sep);
    } else {
      assert bs[..0] == [];
    }
  }

  /** Two binding lists with the same fragments in the same order, whatever their values. */
  predicate SameShape(xs: seq<Binding>, ys: seq<Binding>) {
    |xs| == |ys| && forall i :: 0 <= i < |xs| ==> xs[i].fragment == ys[i].fragment
  }

  /** Joined text depends only on the fragments, never on the bound values. */
  lemma {:induction false} JoinSameShape(xs: seq<Binding>, ys: seq<Binding>, sep: string)
    requires SameShape(xs, ys)
    ensures Join(xs, sep) == Join(ys, sep)
  {
    if |xs| > 1 {
      JoinSameShape(xs[..|xs| - 1], ys[..|ys| - 1], sep);
    }
  }

  /** Guarded appends of same-fragment bindings under the same condition keep the shapes equal. */
  lemma AppendIfSameShape(xs: seq<Binding>, ys: seq<Binding>, cond: bool, x: Binding, y: Binding)
    requires SameShape(xs, ys) && x.fragment == y.fragment
    ensures SameShape(AppendIf(xs, cond, x), AppendIf(ys, cond, y))
  {
    if cond {
      var l, r := xs + [x], ys + [y];
      forall i | 0 <= i < |l| ensures l[i].fragment == r[i].fragment {
        if i < |xs| { assert l[i] == xs[i] && r[i] == ys[i]; }
      }
    }
  }

  /** Five fragments joined with a separator. */
  lemma JoinOfFive(b0: Binding, b1: Binding, b2: Binding, b3: Binding, b4: Binding, sep: string)
    ensures Join([b0, b1, b2, b3, b4], sep) ==
      b0.fragment + sep + b1.fragment + sep + b2.fragment + sep + b3.fragment + sep + b4.fragment
  {
    assert [b0, b1][..1] == [b0];
    assert Join([b0, b1], sep) == b0.fragment + sep + b1.fragment;
    assert [b0, b1, b2][..2] == [b0, b1];
    assert Join([b0, b1, b2], sep) == Join([b0, b1], sep) + sep + b2.fragment;
    assert [b0, b1, b2, b3][..3] == [b0, b1, b2];
    assert Join([b0, b1, b2, b3], sep) == Join([b0, b1, b2], sep) + sep + b3.fragment;
    assert [b0, b1, b2, b3, b4][..4] == [b0, b1, b2, b3];
  }

  /** Slicing off a suffix of its own length gives back what it was appended to. */
  lemma SliceOffSuffix(x: string, suffix: string)
    requires |suffix| > 0
    ensures SliceOffEnd(x + suffix, |suffix|) == x
  {
    assert (x + suffix)[..|x|] == x;
  }
}
