/** The nightly wheel index: a page of links that each run reads, extends, cleans of duplicates and writes again. */
module WheelIndex {

  datatype Wheel = Wheel(name: string, url: string)

  // ----- merging

  /** Of several wheels with the same name only the first one is kept. */
  function Dedup(ws: seq<Wheel>, seen: set<string>): (r: seq<Wheel>)
    decreases |ws|
  {
    if ws == [] then []
    else if ws[0].name in seen then Dedup(ws[1..], seen)
    else [ws[0]] + Dedup(ws[1..], seen + {ws[0].name})
  }

  /** The index after a run: its wheels first, then the older ones; a run without wheels leaves it alone. */
  function Updated(added: seq<Wheel>, kept: seq<Wheel>): seq<Wheel>
  {
    if added == [] then kept else Dedup(added + kept, {})
  }

  function After(runs: seq<seq<Wheel>>): seq<Wheel>
    decreases |runs|
  {
    if runs == [] then [] else Updated(runs[|runs| - 1], After(runs[..|runs| - 1]))
  }

  ghost predicate Distinct(ws: seq<Wheel>)
  {
    forall i, j :: 0 <= i < j < |ws| ==> ws[i].name != ws[j].name
  }

  ghost predicate Has(ws: seq<Wheel>, name: string)
  {
    exists w :: w in ws && w.name == name
  }

  /** The first wheel of its name. */
  ghost predicate Leads(ws: seq<Wheel>, i: int)
  {
    0 <= i < |ws| && forall j :: 0 <= j < i ==> ws[j].name != ws[i].name
  }

  ghost predicate First(ws: seq<Wheel>, w: Wheel)
  {
    exists i :: Leads(ws, i) && ws[i] == w
  }

  /** The first wheel of a sequence leads, and it leads all those of its name. */
  lemma HeadLeads(ws: seq<Wheel>, w: Wheel)
    requires ws != [] && w.name == ws[0].name
    ensures First(ws, w) <==> w == ws[0]
  {
    assert Leads(ws, 0);
  }

  lemma {:induction false} DedupIs(ws: seq<Wheel>, seen: set<string>)
    ensures Distinct(Dedup(ws, seen))
    ensures forall w :: w in Dedup(ws, seen) <==> w.name !in seen && First(ws, w)
    decreases |ws|
  {
    if ws != [] {
      var rest, seen' := ws[1..], if ws[0].name in seen then seen else seen + {ws[0].name};
      DedupIs(rest, seen');
      var r := Dedup(rest, seen');
      assert forall i :: 0 <= i < |r| ==> r[i] in r;
      forall w: Wheel
        ensures First(ws, w) <==> if w.name == ws[0].name then w == ws[0] else First(rest, w)
      {
        if w.name == ws[0].name {
          HeadLeads(ws, w);
        } else {
          LeadsShift(ws, w);
        }
      }
    }
  }

  lemma LeadsShift(ws: seq<Wheel>, w: Wheel)
    requires ws != [] && w.name != ws[0].name
    ensures First(ws[1..], w) <==> First(ws, w)
  {
    if i :| Leads(ws[1..], i) && ws[1..][i] == w {
      forall j | 0 <= j < i + 1
        ensures ws[j].name != ws[i + 1].name
      {
        assert j > 0 ==> ws[1..][j - 1] == ws[j];
      }
      assert Leads(ws, i + 1);
    }
    if i :| Leads(ws, i) && ws[i] == w {
      forall j | 0 <= j < i - 1
        ensures ws[1..][j].name != w.name
      {
        assert ws[1..][j] == ws[j + 1];
      }
      assert Leads(ws[1..], i - 1) && ws[1..][i - 1] == w;
    }
  }

  /** After a run: its own wheels, and the older ones whose name it does not have. */
  lemma UpdatedIs(added: seq<Wheel>, kept: seq<Wheel>)
    requires Distinct(added) && Distinct(kept)
    ensures Distinct(Updated(added, kept))
    ensures forall w :: w in Updated(added, kept) <==> w in added || (w in kept && !Has(added, w.name))
  {
    var all := added + kept;
    DedupIs(all, {});
    forall w
      ensures First(all, w) <==> w in added || (w in kept && !Has(added, w.name))
    {
      if i :| Leads(all, i) && all[i] == w {
        if i >= |added| {
          assert forall j :: 0 <= j < |added| ==> all[j] == added[j];
        }
      }
      if w in added {
        var i :| 0 <= i < |added| && added[i] == w;
        assert Leads(all, i) && all[i] == w;
      } else if w in kept && !Has(added, w.name) {
        var i :| 0 <= i < |kept| && kept[i] == w;
        assert forall j :: 0 <= j < |added| ==> added[j] in added && all[j] == added[j];
        assert Leads(all, |added| + i) && all[|added| + i] == w;
      }
    }
  }

  /** The wheel comes from run `k`, and no later run has one of its name. */
  ghost predicate Latest(runs: seq<seq<Wheel>>, k: int, w: Wheel)
  {
    0 <= k < |runs| && w in runs[k] && forall j :: k < j < |runs| ==> !Has(runs[j], w.name)
  }

  /** After any sequence of runs the index has each wheel name once, with the link of the latest run that had it. */
  lemma {:induction false} IndexIsLatest(runs: seq<seq<Wheel>>)
    requires forall k :: 0 <= k < |runs| ==> Distinct(runs[k])
    ensures Distinct(After(runs))
    ensures forall w :: w in After(runs) <==> exists k :: Latest(runs, k, w)
    decreases |runs|
  {
    if runs != [] {
      var init, added := runs[..|runs| - 1], runs[|runs| - 1];
      IndexIsLatest(init);
      UpdatedIs(added, After(init));
      forall w
        ensures (exists k :: Latest(runs, k, w)) <==> w in added || (!Has(added, w.name) && exists k :: Latest(init, k, w))
      {
        if k :| Latest(runs, k, w) {
          if k < |init| {
            assert Latest(init, k, w);
          }
        }
        if w in added {
          assert Latest(runs, |init|, w);
        } else if k :| Latest(init, k, w) && !Has(added, w.name) {
          assert Latest(runs, k, w);
        }
      }
    }
  }

  lemma {:induction false} DedupDistinct(ws: seq<Wheel>, rest: seq<Wheel>, seen: set<string>)
    requires Distinct(ws) && forall w :: w in ws ==> w.name !in seen
    ensures Dedup(ws + rest, seen) == ws + Dedup(rest, seen + (set w | w in ws :: w.name))
    decreases |ws|
  {
    if ws == [] {
      assert ws + rest == rest;
      assert seen + (set w | w in ws :: w.name) == seen;
    } else {
      assert (ws + rest)[1..] == ws[1..] + rest;
      DedupDistinct(ws[1..], rest, seen + {ws[0].name});
      assert seen + (set w | w in ws :: w.name) == seen + {ws[0].name} + (set w | w in ws[1..] :: w.name);
    }
  }

  lemma {:induction false} DedupSkips(ws: seq<Wheel>, rest: seq<Wheel>, seen: set<string>)
    requires forall w :: w in ws ==> w.name in seen
    ensures Dedup(ws + rest, seen) == Dedup(rest, seen)
    decreases |ws|
  {
    if ws == [] {
      assert ws + rest == rest;
    } else {
      assert (ws + rest)[1..] == ws[1..] + rest;
      DedupSkips(ws[1..], rest, seen);
    }
  }

  lemma {:induction false} DedupTwice(ws: seq<Wheel>, seen: set<string>)
    ensures Dedup(Dedup(ws, seen), seen) == Dedup(ws, seen)
    decreases |ws|
  {
    if ws != [] {
      if ws[0].name in seen {
        DedupTwice(ws[1..], seen);
      } else {
        DedupTwice(ws[1..], seen + {ws[0].name});
        assert Dedup(ws, seen)[1..] == Dedup(ws[1..], seen + {ws[0].name});
      }
    }
  }

  /** Repeating a run changes nothing, not even the order. */
  lemma RepeatedRun(added: seq<Wheel>, kept: seq<Wheel>)
    requires Distinct(added)
    ensures Updated(added, Updated(added, kept)) == Updated(added, kept)
  {
    if added != [] {
      var names := set w | w in added :: w.name;
      DedupDistinct(added, kept, {});
      var rest := Dedup(kept, {} + names);
      DedupDistinct(added, added + rest, {});
      DedupSkips(added, rest, {} + names);
      DedupTwice(kept, {} + names);
    }
  }
}
