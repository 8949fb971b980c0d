/** The document a generator composes, before any renderer sees it: the
    reportlab "story" (a list of flowables) or the sequence of python-docx
    `add_heading` / `add_paragraph` calls, as a sequence of blocks. */
module Story {

  /** Vertical space, in the unit the source writes it in. */
  datatype Length = Inch(hundredths: nat) | Cm(tenths: nat)

  datatype ListStyle = Numbered | Bulleted

  datatype Block =
    | Title(text: string)                       // document title (heading level 0)
    | Subtitle(text: string)                    // centred line under the title
    | Heading(text: string)                     // section heading
    | Para(text: string)                        // body paragraph
    | ListItem(style: ListStyle, text: string)  // 'List Number' / 'List Bullet' paragraph
    | Table(rows: seq<(string, string)>)        // two-column label/value table
    | Spacer(height: Length)

  /** The section headings of a document, in order. */
  function Headings(bs: seq<Block>): (hs: seq<string>)
    ensures |hs| <= |bs|
  {
    if |bs| == 0 then []
    else Headings(bs[..|bs| - 1]) + (if bs[|bs| - 1].Heading? then [bs[|bs| - 1].text] else [])
  }

  lemma {:induction false} HeadingsAppend(a: seq<Block>, b: seq<Block>)
    ensures Headings(a + b) == Headings(a) + Headings(b)
    decreases |b|
  {
    if |b| == 0 {
      assert a + b == a;
    } else {
      assert (a + b)[..|a + b| - 1] == a + b[..|b| - 1];
      HeadingsAppend(a, b[..|b| - 1]);
    }
  }

  predicate NoHeadings(bs: seq<Block>) {
    forall i :: 0 <= i < |bs| ==> !bs[i].Heading?
  }

  lemma {:induction false} HeadingsOfNoHeadings(bs: seq<Block>)
    requires NoHeadings(bs)
    ensures Headings(bs) == []
    decreases |bs|
  {
    if |bs| > 0 {
      HeadingsOfNoHeadings(bs[..|bs| - 1]);
    }
  }

  /** The blocks of a loop `for i, x in enumerate(xs, 1): <emit f(i, x)>`. */
  function Each<T>(xs: seq<T>, f: (nat, T) -> seq<Block>): seq<Block> {
    if |xs| == 0 then [] else Each(xs[..|xs| - 1], f) + f(|xs|, xs[|xs| - 1])
  }

  lemma {:induction false} EachHasNoHeadings<T>(xs: seq<T>, f: (nat, T) -> seq<Block>)
    requires forall i, x :: NoHeadings(f(i, x))
    ensures NoHeadings(Each(xs, f))
    decreases |xs|
  {
    if |xs| > 0 {
      EachHasNoHeadings(xs[..|xs| - 1], f);
    }
  }

  /** When every entry emits two blocks, the entry for `xs[k]` sits at
      positions `2k` and `2k + 1` and carries the 1-based number `k + 1`. */
  lemma {:induction false} EachPairAt<T>(xs: seq<T>, f: (nat, T) -> seq<Block>, k: nat)
    requires forall i, x :: |f(i, x)| == 2
    requires k < |xs|
    ensures |Each(xs, f)| == 2 * |xs|
    ensures Each(xs, f)[2 * k] == f(k + 1, xs[k])[0]
    ensures Each(xs, f)[2 * k + 1] == f(k + 1, xs[k])[1]
    decreases |xs|
  {
    var n := |xs| - 1;
    if k < n {
      EachPairAt(xs[..n], f, k);
      assert xs[..n][k] == xs[k];
    } else if n > 0 {
      EachPairAt(xs[..n], f, 0);
    }
  }

  /** Appends the blocks of every entry of `xs` to `story`, one entry at a time. */
  method AppendEach<T>(story: seq<Block>, xs: seq<T>, f: (nat, T) -> seq<Block>) returns (out: seq<Block>)
    ensures out == story + Each(xs, f)
  {
    out := story;
    for i := 0 to |xs|
      invariant out == story + Each(xs[..i], f)
    {
      assert xs[..i + 1][..i] == xs[..i];
      out := out + f(i + 1, xs[i]);
    }
    assert xs[..|xs|] == xs;
  }

  lemma AppendAssoc(a: seq<Block>, b: seq<Block>, c: seq<Block>)
    ensures (a + b) + c == a + (b + c)
  {
  }

  /** One `if <section shown>:` block of a generator: the heading and the
      blocks of every entry when `show` holds, nothing otherwise. */
  method AppendSection<T>(story: seq<Block>, show: bool, title: string, xs: seq<T>, f: (nat, T) -> seq<Block>,
                          ghost part: seq<Block>)
    returns (out: seq<Block>)
    requires part == (if show then [Heading(title)] + Each(xs, f) else [])
    ensures out == story + part
  {
    out := story;
    if show {
      out := out + [Heading(title)];
      out := AppendEach(out, xs, f);
      AppendAssoc(story, [Heading(title)], Each(xs, f));
    }
  }

  // ------------------------------------------------------------------
  // Documents made of sections
  // ------------------------------------------------------------------

  /** The blocks of a document whose sections, in `order`, contribute `part(s)` each. */
  function Parts<S>(order: seq<S>, part: S -> seq<Block>): seq<Block> {
    if |order| == 0 then [] else Parts(order[..|order| - 1], part) + part(order[|order| - 1])
  }

  /** Appending one more section's blocks to a document holding `header`
      and the sections `done`. */
  lemma PartsStep<S>(done: seq<S>, s: S, part: S -> seq<Block>, header: seq<Block>, before: seq<Block>, after: seq<Block>)
    requires before == header + Parts(done, part)
    requires after == before + part(s)
    ensures after == header + Parts(done + [s], part)
  {
    assert (done + [s])[..|done|] == done;
    AppendAssoc(header, Parts(done, part), part(s));
  }

  /** A document of ten sections, written out part by part, is `Parts` of
      their order. */
  lemma PartsOfTen<S>(order: seq<S>, part: S -> seq<Block>, header: seq<Block>)
    requires |order| == 10
    ensures header + part(order[0]) + part(order[1]) + part(order[2]) + part(order[3]) + part(order[4])
            + part(order[5]) + part(order[6]) + part(order[7]) + part(order[8]) + part(order[9])
            == header + Parts(order, part)
  {
    assert header == header + Parts(order[..0], part);
    var s0 := header;
    var s1 := s0 + part(order[0]);
    assert order[..0] + [order[0]] == order[..1];
    PartsStep(order[..0], order[0], part, header, s0, s1);
    var s2 := s1 + part(order[1]);
    assert order[..1] + [order[1]] == order[..2];
    PartsStep(order[..1], order[1], part, header, s1, s2);
    var s3 := s2 + part(order[2]);
    assert order[..2] + [order[2]] == order[..3];
    PartsStep(order[..2], order[2], part, header, s2, s3);
    var s4 := s3 + part(order[3]);
    assert order[..3] + [order[3]] == order[..4];
    PartsStep(order[..3], order[3], part, header, s3, s4);
    var s5 := s4 + part(order[4]);
    assert order[..4] + [order[4]] == order[..5];
    PartsStep(order[..4], order[4], part, header, s4, s5);
    var s6 := s5 + part(order[5]);
    assert order[..5] + [order[5]] == order[..6];
    PartsStep(order[..5], order[5], part, header, s5, s6);
    var s7 := s6 + part(order[6]);
    assert order[..6] + [order[6]] == order[..7];
    PartsStep(order[..6], order[6], part, header, s6, s7);
    var s8 := s7 + part(order[7]);
    assert order[..7] + [order[7]] == order[..8];
    PartsStep(order[..7], order[7], part, header, s7, s8);
    var s9 := s8 + part(order[8]);
    assert order[..8] + [order[8]] == order[..9];
    PartsStep(order[..8], order[8], part, header, s8, s9);
    var s10 := s9 + part(order[9]);
    assert order[..9] + [order[9]] == order[..10];
    PartsStep(order[..9], order[9], part, header, s9, s10);
    assert order[..10] == order;
  }


  lemma {:induction false} PartsOfNothing<S>(order: seq<S>, part: S -> seq<Block>)
    requires forall i :: 0 <= i < |order| ==> part(order[i]) == []
    ensures Parts(order, part) == []
    decreases |order|
  {
    if |order| > 0 {
      PartsOfNothing(order[..|order| - 1], part);
    }
  }

  /** The elements of `xs` that satisfy `keep`, in order. */
  function Filter<S(!new)>(xs: seq<S>, keep: S -> bool): (r: seq<S>)
    ensures |r| <= |xs|
    ensures forall x :: x in r <==> x in xs && keep(x)
  {
    if |xs| == 0 then []
    else Filter(xs[..|xs| - 1], keep) + (if keep(xs[|xs| - 1]) then [xs[|xs| - 1]] else [])
  }

  /** `xs` is strictly increasing under `rank`. */
  predicate Increasing<S>(xs: seq<S>, rank: S -> int) {
    forall i, j :: 0 <= i < j < |xs| ==> rank(xs[i]) < rank(xs[j])
  }

  lemma {:induction false} FilterKeepsOrder<S(!new)>(xs: seq<S>, keep: S -> bool, rank: S -> int)
    requires Increasing(xs, rank)
    ensures Increasing(Filter(xs, keep), rank)
    decreases |xs|
  {
    if |xs| > 0 {
      var init, last := xs[..|xs| - 1], xs[|xs| - 1];
      FilterKeepsOrder(init, keep, rank);
      forall x | x in Filter(init, keep)
        ensures rank(x) < rank(last)
      {
        var i :| 0 <= i < |init| && init[i] == x;
        assert xs[i] == x;
      }
    }
  }

  /** The titles of a list of sections. */
  function Titles<S>(xs: seq<S>, title: S -> string): (ts: seq<string>)
    ensures |ts| == |xs|
    ensures forall i :: 0 <= i < |xs| ==> ts[i] == title(xs[i])
  {
    if |xs| == 0 then [] else Titles(xs[..|xs| - 1], title) + [title(xs[|xs| - 1])]
  }

  /** When each section contributes its own heading exactly when it is kept,
      the headings of the document are the titles of the kept sections, in order. */
  lemma {:induction false} PartsHeadings<S(!new)>(order: seq<S>, part: S -> seq<Block>, keep: S -> bool, title: S -> string)
    requires forall s :: Headings(part(s)) == (if keep(s) then [title(s)] else [])
    ensures Headings(Parts(order, part)) == Titles(Filter(order, keep), title)
    decreases |order|
  {
    if |order| > 0 {
      var init, last := order[..|order| - 1], order[|order| - 1];
      PartsHeadings(init, part, keep, title);
      HeadingsAppend(Parts(init, part), part(last));
      var kept := Filter(init, keep);
      if keep(last) {
        assert Titles(kept + [last], title) == Titles(kept, title) + [title(last)] by {
          assert (kept + [last])[..|kept|] == kept;
        }
      } else {
        assert Filter(order, keep) == kept + [] == kept;
      }
    }
  }
}
