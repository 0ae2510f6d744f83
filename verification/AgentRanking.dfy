/** What an agent's assessment consists of, and how a model's choice reorders its actions. */
module AgentRanking {
  import opened Basics

  datatype Evidence = Evidence(id: string, content: string)

  datatype Source = Deterministic | Model

  datatype Finding = Finding(id: string, message: string, evidenceIds: seq<string>, source: Source)

  /** `content` is everything but the id, the citations and the rank: kind, summary and payload. */
  datatype Action = Action(id: string, content: string, evidenceIds: seq<string>, rank: int)

  datatype Assessment = Assessment(
    summary: string,
    findings: seq<Finding>,
    metrics: seq<string>,
    actions: seq<Action>,
    evidence: seq<Evidence>,
    warnings: seq<string>,
    dataQuality: string)

  // --- sorting by rank, equal ranks in their given order ---

  function Insert(a: Action, sorted: seq<Action>): seq<Action> {
    if sorted == [] then [a]
    else if a.rank <= sorted[0].rank then [a] + sorted
    else [sorted[0]] + Insert(a, sorted[1..])
  }

  function SortByRank(actions: seq<Action>): seq<Action> {
    if actions == [] then [] else Insert(actions[0], SortByRank(actions[1..]))
  }

  function OfRank(actions: seq<Action>, rank: int): seq<Action> {
    if actions == [] then []
    else if actions[0].rank == rank then [actions[0]] + OfRank(actions[1..], rank)
    else OfRank(actions[1..], rank)
  }

  function Having(actions: seq<Action>, id: string): seq<Action> {
    if actions == [] then []
    else if actions[0].id == id then [actions[0]] + Having(actions[1..], id)
    else Having(actions[1..], id)
  }

  function Lacking(actions: seq<Action>, id: string): seq<Action> {
    if actions == [] then []
    else if actions[0].id != id then [actions[0]] + Lacking(actions[1..], id)
    else Lacking(actions[1..], id)
  }

  function Numbered(actions: seq<Action>): seq<Action> {
    seq(|actions|, i requires 0 <= i < |actions| => actions[i].(rank := i))
  }

  function Chosen(actions: seq<Action>, selected: Option<string>): seq<Action> {
    var ordered := SortByRank(actions);
    if selected.None? then ordered else Having(ordered, selected.value) + Lacking(ordered, selected.value)
  }

  /** The selected action first, the others in rank order, ranks renumbered from 0. */
  function Reranked(actions: seq<Action>, selected: Option<string>): seq<Action> {
    Numbered(Chosen(actions, selected))
  }

  // --- the sort is the stable one ---

  predicate Ascending(actions: seq<Action>) {
    forall i: nat, j: nat :: i < j < |actions| ==> actions[i].rank <= actions[j].rank
  }

  lemma {:induction false} InsertAscends(a: Action, sorted: seq<Action>)
    requires Ascending(sorted)
    ensures Ascending(Insert(a, sorted))
    ensures forall x :: x in Insert(a, sorted) ==> x == a || x in sorted
  {
    if sorted != [] && a.rank > sorted[0].rank {
      InsertAscends(a, sorted[1..]);
      var r := Insert(a, sorted[1..]);
      forall i: nat | i < |r| ensures sorted[0].rank <= r[i].rank { assert r[i] in r; }
    }
  }

  lemma {:induction false} NoneBelow(sorted: seq<Action>, rank: int)
    requires Ascending(sorted) && sorted != [] && rank < sorted[0].rank
    ensures OfRank(sorted, rank) == []
  {
    if |sorted| > 1 { NoneBelow(sorted[1..], rank); }
  }

  lemma OfRankFirst(a: Action, rest: seq<Action>, rank: int)
    ensures OfRank([a] + rest, rank) == if a.rank == rank then [a] + OfRank(rest, rank) else OfRank(rest, rank)
  {
    assert ([a] + rest)[1..] == rest;
  }

  lemma {:induction false} InsertIsStable(a: Action, sorted: seq<Action>, rank: int)
    requires Ascending(sorted)
    ensures OfRank(Insert(a, sorted), rank) == if a.rank == rank then [a] + OfRank(sorted, rank)
        else OfRank(sorted, rank)
  {
    hide OfRank;
    if sorted == [] || a.rank <= sorted[0].rank {
      OfRankFirst(a, sorted, rank);
      assert [a] + sorted == Insert(a, sorted);
    } else {
      var first, rest := sorted[0], sorted[1..];
      InsertIsStable(a, rest, rank);
      OfRankFirst(first, Insert(a, rest), rank);
      OfRankFirst(first, rest, rank);
      assert sorted == [first] + rest;
    }
  }

  /** Ascending, and the actions of each rank in the order they were given. */
  lemma {:induction false} SortIsStable(actions: seq<Action>)
    ensures Ascending(SortByRank(actions))
    ensures forall rank :: OfRank(SortByRank(actions), rank) == OfRank(actions, rank)
  {
    if actions != [] {
      SortIsStable(actions[1..]);
      InsertAscends(actions[0], SortByRank(actions[1..]));
      forall rank ensures OfRank(SortByRank(actions), rank) == OfRank(actions, rank) {
        InsertIsStable(actions[0], SortByRank(actions[1..]), rank);
        OfRankFirst(actions[0], actions[1..], rank);
        assert actions == [actions[0]] + actions[1..];
      }
    }
  }

  /** Nothing else has these two properties. */
  lemma {:induction false} StableSortIsUnique(s: seq<Action>, t: seq<Action>)
    requires Ascending(s) && Ascending(t)
    requires forall rank :: OfRank(s, rank) == OfRank(t, rank)
    ensures s == t
  {
    if s != [] || t != [] {
      var low := if s == [] then t[0].rank else if t == [] || s[0].rank <= t[0].rank then s[0].rank else t[0].rank;
      assert OfRank(s, low) == OfRank(t, low);
      assert s != [] && t != [];
      if s[0].rank > low { NoneBelow(s, low); }
      if t[0].rank > low { NoneBelow(t, low); }
      assert s[0].rank == low && t[0].rank == low;
      assert OfRank(s, low)[0] == s[0] && OfRank(t, low)[0] == t[0];
      forall rank ensures OfRank(s[1..], rank) == OfRank(t[1..], rank) {
        assert OfRank(s, rank) == OfRank(t, rank);
        if rank == low {
          assert OfRank(s, rank)[1..] == OfRank(s[1..], rank) && OfRank(t, rank)[1..] == OfRank(t[1..], rank);
        }
      }
      StableSortIsUnique(s[1..], t[1..]);
      assert s == [s[0]] + s[1..] && t == [t[0]] + t[1..];
    }
  }

  // --- nothing but the ranks changes ---

  /** The actions, ranks aside. */
  function Bag(actions: seq<Action>): multiset<Action> {
    if actions == [] then multiset{} else multiset{actions[0].(rank := 0)} + Bag(actions[1..])
  }

  lemma {:induction false} BagOfTwo(s: seq<Action>, t: seq<Action>)
    ensures Bag(s + t) == Bag(s) + Bag(t)
  {
    if s == [] {
      assert s + t == t;
    } else {
      assert (s + t)[1..] == s[1..] + t;
      BagOfTwo(s[1..], t);
    }
  }

  lemma {:induction false} InsertKeepsBag(a: Action, sorted: seq<Action>)
    ensures Bag(Insert(a, sorted)) == multiset{a.(rank := 0)} + Bag(sorted)
  {
    if sorted != [] && a.rank > sorted[0].rank {
      InsertKeepsBag(a, sorted[1..]);
      var r := Insert(a, sorted[1..]);
      assert ([sorted[0]] + r)[1..] == r;
    } else if sorted != [] {
      assert ([a] + sorted)[1..] == sorted;
    }
  }

  lemma {:induction false} SortKeepsBag(actions: seq<Action>)
    ensures Bag(SortByRank(actions)) == Bag(actions)
  {
    if actions != [] {
      SortKeepsBag(actions[1..]);
      InsertKeepsBag(actions[0], SortByRank(actions[1..]));
    }
  }

  lemma {:induction false} SplitKeepsBag(actions: seq<Action>, id: string)
    ensures Bag(Having(actions, id)) + Bag(Lacking(actions, id)) == Bag(actions)
  {
    if actions != [] {
      SplitKeepsBag(actions[1..], id);
      if actions[0].id == id {
        BagOfTwo([actions[0]], Having(actions[1..], id));
      } else {
        BagOfTwo([actions[0]], Lacking(actions[1..], id));
      }
    }
  }

  lemma {:induction false} SameButRanks(s: seq<Action>, t: seq<Action>)
    requires |s| == |t| && forall i: nat :: i < |s| ==> s[i].(rank := 0) == t[i].(rank := 0)
    ensures Bag(s) == Bag(t)
  {
    if s != [] {
      forall i: nat | i < |s[1..]| ensures s[1..][i].(rank := 0) == t[1..][i].(rank := 0) {
        assert s[1..][i] == s[i + 1] && t[1..][i] == t[i + 1];
      }
      SameButRanks(s[1..], t[1..]);
    }
  }

  /** Whatever is selected, the actions are the same actions: only ranks change. */
  lemma RerankKeepsActions(actions: seq<Action>, selected: Option<string>)
    ensures Bag(Reranked(actions, selected)) == Bag(actions)
  {
    hide Bag, SortByRank, Having, Lacking;
    var ordered := SortByRank(actions);
    SortKeepsBag(actions);
    if selected.Some? {
      SplitKeepsBag(ordered, selected.value);
      BagOfTwo(Having(ordered, selected.value), Lacking(ordered, selected.value));
    }
    SameButRanks(Reranked(actions, selected), Chosen(actions, selected));
  }

  lemma {:induction false} SortKeepsMembers(actions: seq<Action>, a: Action)
    ensures a in SortByRank(actions) <==> a in actions
  {
    if actions != [] {
      SortKeepsMembers(actions[1..], a);
      InsertMembers(actions[0], SortByRank(actions[1..]), a);
      assert a in actions <==> a == actions[0] || a in actions[1..];
    }
  }

  lemma {:induction false} InsertMembers(x: Action, sorted: seq<Action>, a: Action)
    ensures a in Insert(x, sorted) <==> a == x || a in sorted
  {
    if sorted != [] && x.rank > sorted[0].rank {
      InsertMembers(x, sorted[1..], a);
      assert a in sorted <==> a == sorted[0] || a in sorted[1..];
    }
  }

  lemma {:induction false} HavingFacts(actions: seq<Action>, id: string)
    ensures forall a :: a in Having(actions, id) ==> a.id == id
    ensures Having(actions, id) != [] <==> exists a :: a in actions && a.id == id
    ensures forall a :: a in Lacking(actions, id) ==> a.id != id
  {
    if actions != [] {
      HavingFacts(actions[1..], id);
      forall a | a in actions && a.id == id ensures Having(actions, id) != [] {
        if a != actions[0] { assert a in actions[1..]; }
      }
    }
  }

  /** Same action but for its rank. */
  predicate Alike(a: Action, b: Action) {
    a.(rank := 0) == b.(rank := 0)
  }

  /** `r` is `ordered` from index `at` on, but for the ranks. */
  predicate Follows(r: seq<Action>, at: nat, ordered: seq<Action>) {
    |r| == at + |ordered| && forall i: nat :: i < |ordered| ==> Alike(r[at + i], ordered[i])
  }

  /**
    Ranks run from 0; the selected actions come first, and the others follow in the order of the
    stable sort by rank.
   */
  ghost predicate RankedAs(actions: seq<Action>, selected: Option<string>, r: seq<Action>) {
    var ordered := SortByRank(actions);
    && (forall i: nat :: i < |r| ==> r[i].rank == i)
    && match selected
       case None => Follows(r, 0, ordered)
       case Some(id) =>
         && Follows(r, |Having(ordered, id)|, Lacking(ordered, id))
         && (forall i: nat :: i < |Having(ordered, id)| ==> Alike(r[i], Having(ordered, id)[i]) && r[i].id == id)
         && (forall a :: a in Lacking(ordered, id) ==> a.id != id)
         && ((exists a :: a in actions && a.id == id) ==> Having(ordered, id) != [])
  }

  lemma RerankOrders(actions: seq<Action>, selected: Option<string>)
    ensures RankedAs(actions, selected, Reranked(actions, selected))
  {
    hide SortByRank, Having, Lacking, Follows, Numbered;
    var ordered := SortByRank(actions);
    var chosen := Chosen(actions, selected);
    NumberedFollows(chosen);
    if selected.Some? {
      var first, rest := Having(ordered, selected.value), Lacking(ordered, selected.value);
      HavingFacts(ordered, selected.value);
      FollowsParts(Numbered(chosen), first, rest);
      FollowsFirst(Numbered(chosen), first, selected.value);
      if a :| a in actions && a.id == selected.value { SortKeepsMembers(actions, a); }
    }
  }

  lemma NumberedFollows(actions: seq<Action>)
    ensures Follows(Numbered(actions), 0, actions)
    ensures forall i: nat :: i < |Numbered(actions)| ==> Numbered(actions)[i].rank == i
  {
  }

  lemma FollowsParts(r: seq<Action>, first: seq<Action>, rest: seq<Action>)
    requires Follows(r, 0, first + rest)
    ensures Follows(r, |first|, rest)
    ensures forall i: nat :: i < |first| ==> Alike(r[i], first[i])
  {
    var all := first + rest;
    forall i: nat | i < |rest| ensures Alike(r[|first| + i], rest[i]) {
      assert all[|first| + i] == rest[i] && Alike(r[0 + (|first| + i)], all[|first| + i]);
    }
    forall i: nat | i < |first| ensures Alike(r[i], first[i]) {
      assert all[i] == first[i] && Alike(r[0 + i], all[i]);
    }
  }

  lemma FollowsFirst(r: seq<Action>, first: seq<Action>, id: string)
    requires |first| <= |r| && forall i: nat :: i < |first| ==> Alike(r[i], first[i])
    requires forall a :: a in first ==> a.id == id
    ensures forall i: nat :: i < |first| ==> r[i].id == id
  {
    forall i: nat | i < |first| ensures r[i].id == id {
      assert first[i] in first && Alike(r[i], first[i]);
    }
  }
}
