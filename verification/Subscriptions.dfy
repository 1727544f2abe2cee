/** Packing subscribed tokens into socket groups of at most 200, without moving the
    tokens of a consumer whose subscription did not change. */
module Subscriptions {
  import opened Arith
  import opened Sorting

  const GROUP_SIZE := 200

  type Token = string

  /** A group is known by the number in its name. */
  type Group = nat

  type Service = nat

  type Groups = map<Group, set<Token>>

  // ------------------------------------------------------------ what a packing is

  function Union(consumers: map<Service, set<Token>>): set<Token> {
    set s, t | s in consumers && t in consumers[s] :: t
  }

  function Assigned(active: Groups): set<Token> { set g, t | g in active && t in active[g] :: t }

  ghost predicate Disjoint(active: Groups) {
    forall g, h, t :: g in active && h in active && t in active[g] && t in active[h] ==> g == h
  }

  ghost predicate Bounded(active: Groups) {
    forall g :: g in active ==> |active[g]| <= GROUP_SIZE
  }

  ghost predicate NoneEmpty(active: Groups) { forall g :: g in active ==> active[g] != {} }

  ghost predicate Packed(active: Groups) { Disjoint(active) && Bounded(active) && NoneEmpty(active) }

  /** No token of `kept` changed its group. */
  ghost predicate Stays(before: Groups, after: Groups, kept: set<Token>) {
    forall g, t :: g in before && t in before[g] && t in kept ==> g in after && t in after[g]
  }

  /** Every group is still there with at least its tokens. */
  ghost predicate Grows(before: Groups, after: Groups) {
    forall g :: g in before ==> g in after && before[g] <= after[g]
  }

  lemma GrowsTwice(a: Groups, b: Groups, c: Groups)
    requires Grows(a, b) && Grows(b, c)
    ensures Grows(a, c)
  {
  }

  function MinimumGroups(n: nat): nat { (n + GROUP_SIZE - 1) / GROUP_SIZE }

  function AsSet(s: seq<Token>): set<Token> { set t | t in s }

  // ------------------------------------------------------------ filling groups in order

  /** How many of `count` tokens still fit beside `held`. */
  function Room(held: nat, count: nat): nat { if held >= GROUP_SIZE then 0 else Min(GROUP_SIZE - held, count) }

  /** Pours tokens into the listed groups, each up to its room; returns what is left over. */
  function Poured(order: seq<Group>, active: Groups, tokens: seq<Token>): (Groups, seq<Token>)
    requires forall g :: g in order ==> g in active
    decreases |order|
  {
    if order == [] then (active, tokens)
    else
      var g := order[0];
      var n := Room(|active[g]|, |tokens|);
      Poured(order[1..], active[g := active[g] + AsSet(tokens[..n])], tokens[n..])
  }

  /** What pouring `tokens` over `active` must leave. */
  ghost predicate Pours(active: Groups, tokens: seq<Token>, after: Groups, left: seq<Token>) {
    && after.Keys == active.Keys && Disjoint(after) && Bounded(after)
    && Grows(active, after)
    && Distinct(left) && AsSet(left) <= AsSet(tokens) && AsSet(left) !! Assigned(after)
    && Assigned(after) + AsSet(left) == Assigned(active) + AsSet(tokens)
  }

  lemma AddTokens(active: Groups, g: Group, more: set<Token>)
    requires g in active && Disjoint(active) && Bounded(active)
    requires more !! Assigned(active) && |active[g]| + |more| <= GROUP_SIZE
    ensures var after := active[g := active[g] + more];
            && Disjoint(after) && Bounded(after) && Assigned(after) == Assigned(active) + more
            && |after[g]| == |active[g]| + |more|
  {
    var after := active[g := active[g] + more];
    forall h, t | h in active && t in active[h]
      ensures t !in more
    {
      assert t in Assigned(active);
    }
    assert active[g] !! more;
    forall t
      ensures t in Assigned(after) <==> t in Assigned(active) + more
    {
      if t in Assigned(active) {
        var h :| h in active && t in active[h];
        assert h in after && t in after[h];
      }
      if t in more {
        assert g in after && t in after[g];
      }
    }
  }

  lemma SplitTokens(tokens: seq<Token>, n: nat)
    requires Distinct(tokens) && n <= |tokens|
    ensures Distinct(tokens[..n]) && Distinct(tokens[n..]) && |AsSet(tokens[..n])| == n
    ensures AsSet(tokens[..n]) !! AsSet(tokens[n..])
    ensures AsSet(tokens) == AsSet(tokens[..n]) + AsSet(tokens[n..])
  {
    assert tokens == tokens[..n] + tokens[n..];
    DistinctSize(tokens[..n], AsSet(tokens[..n]));
    forall i, j | 0 <= i < n <= j < |tokens|
      ensures tokens[i] != tokens[j]
    {
    }
    forall t | t in AsSet(tokens[..n])
      ensures t !in AsSet(tokens[n..])
    {
      var i :| 0 <= i < n && tokens[i] == t;
      assert forall j :: 0 <= j < |tokens| - n ==> tokens[n..][j] == tokens[n + j];
    }
  }

  /** One group takes the first `n` tokens. */
  lemma OneGroupGrows(active: Groups, g: Group, more: set<Token>)
    requires g in active
    ensures Grows(active, active[g := active[g] + more])
  {
  }

  lemma SplitAssigned(used: set<Token>, tokens: set<Token>, taken: set<Token>, left: set<Token>)
    requires tokens == taken + left && taken !! left && tokens !! used
    ensures taken !! used && left <= tokens && left !! used + taken
    ensures used + taken + left == used + tokens
  {
  }

  lemma PouredOnce(active: Groups, g: Group, tokens: seq<Token>)
    requires g in active && Disjoint(active) && Bounded(active) && |active[g]| <= GROUP_SIZE
    requires Distinct(tokens) && AsSet(tokens) !! Assigned(active)
    ensures var n := Room(|active[g]|, |tokens|);
            var next := active[g := active[g] + AsSet(tokens[..n])];
            Pours(active, tokens, next, tokens[n..]) && (n < |tokens| ==> |next[g]| == GROUP_SIZE)
  {
    hide Assigned, Distinct, Disjoint, Bounded, AsSet, Grows;
    var n := Room(|active[g]|, |tokens|);
    SplitTokens(tokens, n);
    AddTokens(active, g, AsSet(tokens[..n]));
    OneGroupGrows(active, g, AsSet(tokens[..n]));
    SplitAssigned(Assigned(active), AsSet(tokens), AsSet(tokens[..n]), AsSet(tokens[n..]));
  }

  lemma PoursTwice(active: Groups, tokens: seq<Token>, next: Groups, rest: seq<Token>, after: Groups, left: seq<Token>)
    requires Pours(active, tokens, next, rest) && Pours(next, rest, after, left)
    ensures Pours(active, tokens, after, left)
  {
  }

  /** Pouring assigns exactly what it takes, keeps groups disjoint and bounded, and moves nothing. */
  lemma {:induction false} PouredKeeps(order: seq<Group>, active: Groups, tokens: seq<Token>)
    requires forall g :: g in order ==> g in active
    requires Disjoint(active) && Bounded(active) && Distinct(tokens) && AsSet(tokens) !! Assigned(active)
    ensures Pours(active, tokens, Poured(order, active, tokens).0, Poured(order, active, tokens).1)
    decreases |order|
  {
    if order != [] {
      var g := order[0];
      var next := active[g := active[g] + AsSet(tokens[..Room(|active[g]|, |tokens|)])];
      var rest := tokens[Room(|active[g]|, |tokens|)..];
      assert |active[g]| <= GROUP_SIZE;
      hide Disjoint, Bounded, Distinct, Assigned;
      PouredOnce(active, g, tokens);
      PouredKeeps(order[1..], next, rest);
      PoursTwice(active, tokens, next, rest, Poured(order[1..], next, rest).0, Poured(order[1..], next, rest).1);
    }
  }

  lemma GroupBounded(active: Groups, g: Group)
    requires Bounded(active) && g in active
    ensures |active[g]| <= GROUP_SIZE
  {
  }

  /** Tokens are left over only when every listed group is full. */
  lemma {:induction false} PouredFull(order: seq<Group>, active: Groups, tokens: seq<Token>)
    requires forall g :: g in order ==> g in active
    requires Disjoint(active) && Bounded(active) && Distinct(tokens) && AsSet(tokens) !! Assigned(active)
    requires Poured(order, active, tokens).1 != []
    ensures forall g :: g in order ==> g in Poured(order, active, tokens).0 && |Poured(order, active, tokens).0[g]| == GROUP_SIZE
    decreases |order|
  {
    hide Disjoint, Bounded, Distinct, Assigned, AsSet, Grows;
    if order != [] {
      var g := order[0];
      var next := active[g := active[g] + AsSet(tokens[..Room(|active[g]|, |tokens|)])];
      var rest := tokens[Room(|active[g]|, |tokens|)..];
      GroupBounded(active, g);
      PouredOnce(active, g, tokens);
      PouredFull(order[1..], next, rest);
      PouredKeeps(order[1..], next, rest);
      FirstIsFull(g, next, rest, Poured(order[1..], next, rest).0, Poured(order[1..], next, rest).1);
      assert order == [order[0]] + order[1..];
    }
  }

  lemma FirstIsFull(g: Group, next: Groups, rest: seq<Token>, after: Groups, left: seq<Token>)
    requires g in next && Pours(next, rest, after, left) && left != []
    requires rest != [] ==> |next[g]| == GROUP_SIZE
    ensures |after[g]| == GROUP_SIZE
  {
    assert left[0] in AsSet(left);
    assert left[0] in AsSet(rest);
    SubsetSize(next[g], after[g]);
  }

  lemma RemovedSome(held: set<Token>, monitored: set<Token>)
    ensures held - held * monitored != {} <==> !(held <= monitored)
  {
    assert held - held * monitored == held - monitored;
    if !(held <= monitored) {
      var t :| t in held && t !in monitored;
      assert t in held - monitored;
    }
  }

  lemma {:induction false} SubsetSize(a: set<Token>, b: set<Token>)
    requires a <= b
    ensures |a| <= |b|
  {
    if a != {} {
      var t :| t in a;
      SubsetSize(a - {t}, b - {t});
    }
  }

  lemma DisjointSize(a: set<Token>, b: set<Token>)
    requires a !! b
    ensures |a + b| == |a| + |b|
  {
  }

  // ------------------------------------------------------------ counting groups

  /** Disjoint full groups hold exactly their number times the group size. */
  lemma {:induction false} FullGroupsCount(active: Groups)
    requires Disjoint(active) && forall g :: g in active ==> |active[g]| == GROUP_SIZE
    ensures |Assigned(active)| == GROUP_SIZE * |active|
    decreases |active|
  {
    if active == map[] {
      assert Assigned(active) == {};
    } else {
      var g :| g in active;
      var rest := active - {g};
      assert active.Keys == rest.Keys + {g};
      FullGroupsCount(rest);
      forall t
        ensures t in Assigned(active) <==> t in Assigned(rest) + active[g]
      {
        if t in Assigned(active) && t !in active[g] {
          var h :| h in active && t in active[h];
          assert h in rest && t in rest[h];
        }
        if t in Assigned(rest) {
          var h :| h in rest && t in rest[h];
          assert h in active && t in active[h];
        }
      }
      assert Assigned(active) == Assigned(rest) + active[g];
      assert Assigned(rest) !! active[g] by {
        forall t | t in Assigned(rest)
          ensures t !in active[g]
        {
          var h :| h in rest && t in rest[h];
        }
      }
      DisjointSize(Assigned(rest), active[g]);
    }
  }

  /** Opening groups only beside full ones uses the fewest groups there can be. */
  lemma OpenedIsMinimal(full: nat, left: nat)
    ensures full + MinimumGroups(left) == MinimumGroups(GROUP_SIZE * full + left)
  {
  }

  lemma ChunksAreMinimal(n: nat, chunks: nat)
    requires n <= GROUP_SIZE * chunks && (chunks > 0 ==> GROUP_SIZE * (chunks - 1) < n)
    ensures chunks == MinimumGroups(n)
  {
  }

  // ------------------------------------------------------------ the hub

  datatype Ranked = Ranked(size: nat, group: Group)

  function Decimal(n: nat): string {
    if n < 10 then [(n as char) + '0'] else Decimal(n / 10) + [((n % 10) as char) + '0']
  }

  function Name(g: Group): string { "public-" + Decimal(g) }

  /** Fullest first, then by name. */
  function FullestFirst(): (Ranked, Ranked) -> bool {
    (a: Ranked, b: Ranked) => a.size > b.size || (a.size == b.size && TextLe(Name(a.group), Name(b.group)))
  }

  lemma FullestFirstIsTotal()
    ensures TotalPreorder(FullestFirst())
  {
    var le := FullestFirst();
    forall a, b
      ensures le(a, b) || le(b, a)
    {
      TextLeTotal(Name(a.group), Name(b.group));
    }
    forall a, b, c | le(a, b) && le(b, c)
      ensures le(a, c)
    {
      if TextLe(Name(a.group), Name(b.group)) && TextLe(Name(b.group), Name(c.group)) {
        TextLeTransitive(Name(a.group), Name(b.group), Name(c.group));
      }
    }
  }

  method SortedTokens(tokens: set<Token>) returns (r: seq<Token>)
    ensures AsSet(r) == tokens && Distinct(r) && SortedBy(TextOrder(), r)
  {
    var todo, list := tokens, [];
    while todo != {}
      invariant todo <= tokens && AsSet(list) == tokens - todo && Distinct(list)
      decreases todo
    {
      var t :| t in todo;
      assert t !in list;
      assert AsSet(list + [t]) == AsSet(list) + {t};
      list := list + [t];
      todo := todo - {t};
    }
    TextOrderIsTotal();
    SortSorts(TextOrder(), list);
    SortKeepsElements(TextOrder(), list);
    r := Sort(TextOrder(), list);
    assert AsSet(r) == AsSet(list);
    PermutationDistinct(list, r);
  }

  /** The groups that hold a protected token. */
  function Protected(active: Groups, tokens: set<Token>): set<Group> {
    set g | g in active && active[g] * tokens != {}
  }

  function GroupsOf(ranked: seq<Ranked>): (r: seq<Group>)
    ensures |r| == |ranked| && forall i :: 0 <= i < |r| ==> r[i] == ranked[i].group
  {
    if ranked == [] then [] else [ranked[0].group] + GroupsOf(ranked[1..])
  }

  /** A distinct ranking whose sizes are the groups' sizes names each group once. */
  lemma RankedGroups(active: Groups, ranked: seq<Ranked>)
    requires Distinct(ranked)
    requires forall x :: x in ranked <==> x.group in active && x.size == |active[x.group]|
    ensures Distinct(GroupsOf(ranked)) && forall g :: g in GroupsOf(ranked) <==> g in active
  {
    var groups := GroupsOf(ranked);
    forall i | 0 <= i < |groups|
      ensures groups[i] in active && ranked[i] == Ranked(|active[groups[i]]|, groups[i])
    {
      assert ranked[i] in ranked;
    }
    forall g | g in active
      ensures g in groups
    {
      var x := Ranked(|active[g]|, g);
      assert x in ranked;
      var i :| 0 <= i < |ranked| && ranked[i] == x;
      assert groups[i] == g;
    }
  }

  /** Those of the listed groups that do, or do not, hold a protected token. */
  function Only(active: Groups, tokens: set<Token>, holding: bool, groups: seq<Group>): seq<Group>
    requires forall g :: g in groups ==> g in active
  {
    if groups == [] then []
    else
      var rest := Only(active, tokens, holding, groups[1..]);
      if (active[groups[0]] * tokens != {}) == holding then [groups[0]] + rest else rest
  }

  lemma {:induction false} OnlyFacts(active: Groups, tokens: set<Token>, holding: bool, groups: seq<Group>)
    requires Distinct(groups) && forall g :: g in groups ==> g in active
    ensures Distinct(Only(active, tokens, holding, groups))
    ensures forall g :: g in Only(active, tokens, holding, groups) <==>
              g in groups && (active[g] * tokens != {}) == holding
  {
    if groups != [] {
      assert groups == [groups[0]] + groups[1..];
      OnlyFacts(active, tokens, holding, groups[1..]);
    }
  }

  lemma ProtectedSize(active: Groups, tokens: set<Token>, inside: seq<Group>, outside: seq<Group>) returns (n: nat)
    requires Distinct(inside) && forall g :: g in inside <==> g in active && active[g] * tokens != {}
    requires Distinct(outside) && forall g :: g in outside <==> g in active && active[g] * tokens == {}
    ensures n == |inside| == |Protected(active, tokens)| && |inside| + |outside| == |active|
  {
    n := |inside|;
    var p := Protected(active, tokens);
    DistinctSize(inside, p);
    DistinctSize(outside, active.Keys - p);
    assert p <= active.Keys;
    assert |active.Keys - p| == |active.Keys| - |p|;
  }

  lemma JoinDistinct(a: seq<Group>, b: seq<Group>, n: nat)
    requires Distinct(a) && Distinct(b) && n <= |b| && forall g :: g in a ==> g !in b
    ensures Distinct(a + b[..n]) && forall g :: g in b[..n] ==> g in b
  {
    forall i, j | 0 <= i < |a| && 0 <= j < n
      ensures a[i] != b[..n][j]
    {
      assert a[i] in a && b[j] in b;
    }
  }

  function Ranks(groups: seq<Group>, active: Groups): (r: seq<Ranked>)
    requires forall g :: g in groups ==> g in active
    ensures |r| == |groups| && forall i :: 0 <= i < |r| ==> r[i] == Ranked(|active[groups[i]]|, groups[i])
  {
    if groups == [] then []
    else
      assert groups == [groups[0]] + groups[1..];
      [Ranked(|active[groups[0]]|, groups[0])] + Ranks(groups[1..], active)
  }

  /** The groups, fullest first. */
  function Ordered(order: seq<Group>, active: Groups): seq<Group>
    requires forall g :: g in order ==> g in active
  {
    GroupsOf(Sort(FullestFirst(), Ranks(order, active)))
  }

  lemma OrderedFacts(order: seq<Group>, active: Groups)
    requires Distinct(order) && forall g :: g in order <==> g in active
    ensures Distinct(Ordered(order, active)) && forall g :: g in Ordered(order, active) <==> g in active
  {
    var ranked := Ranks(order, active);
    forall g | g in active
      ensures Ranked(|active[g]|, g) in ranked
    {
      var i :| 0 <= i < |order| && order[i] == g;
      assert ranked[i] == Ranked(|active[g]|, g);
    }
    FullestFirstIsTotal();
    SortSorts(FullestFirst(), ranked);
    SortKeepsElements(FullestFirst(), ranked);
    PermutationDistinct(ranked, Sort(FullestFirst(), ranked));
    RankedGroups(active, Sort(FullestFirst(), ranked));
  }

  /** Every group with a protected token, and then the fullest others up to the minimum. */
  function RetainedGroups(ordered: seq<Group>, active: Groups, tokens: set<Token>, minimum: nat): seq<Group>
    requires forall g :: g in ordered ==> g in active
  {
    var inside, outside := Only(active, tokens, true, ordered), Only(active, tokens, false, ordered);
    inside + outside[..Min(Max(0, minimum - |inside|), |outside|)]
  }

  lemma RetainedFacts(ordered: seq<Group>, active: Groups, tokens: set<Token>, minimum: nat)
    requires Distinct(ordered) && forall g :: g in ordered <==> g in active
    ensures var r := RetainedGroups(ordered, active, tokens, minimum);
            && Distinct(r) && (forall g :: g in r ==> g in active) && Protected(active, tokens) <= AsGroups(r)
            && |r| == Max(|Protected(active, tokens)|, Min(minimum, |active|))
  {
    var inside, outside := Only(active, tokens, true, ordered), Only(active, tokens, false, ordered);
    OnlyFacts(active, tokens, true, ordered);
    OnlyFacts(active, tokens, false, ordered);
    var n := ProtectedSize(active, tokens, inside, outside);
    var extra := Min(Max(0, minimum - |inside|), |outside|);
    JoinDistinct(inside, outside, extra);
    assert forall g :: g in Protected(active, tokens) ==> g in inside;
  }

  /** Fuller, or as full and earlier by name. */
  predicate Fuller(active: Groups, g: Group, h: Group)
    requires g in active && h in active
  {
    |active[g]| > |active[h]| || (|active[g]| == |active[h]| && TextLe(Name(g), Name(h)))
  }

  ghost predicate FullestAhead(active: Groups, groups: seq<Group>) {
    && (forall g :: g in groups ==> g in active)
    && forall i, j :: 0 <= i < j < |groups| ==> Fuller(active, groups[i], groups[j])
  }

  lemma OrderedAhead(order: seq<Group>, active: Groups)
    requires forall g :: g in order ==> g in active
    ensures FullestAhead(active, Ordered(order, active))
  {
    hide Name, TextLe;
    var ranked := Ranks(order, active);
    FullestFirstIsTotal();
    SortSorts(FullestFirst(), ranked);
    SortKeepsElements(FullestFirst(), ranked);
    var sorted, groups := Sort(FullestFirst(), ranked), Ordered(order, active);
    forall i | 0 <= i < |groups|
      ensures groups[i] in active && sorted[i] == Ranked(|active[groups[i]]|, groups[i])
    {
      assert sorted[i] in sorted;
      var k :| 0 <= k < |ranked| && ranked[k] == sorted[i];
      assert order[k] in order;
    }
    forall i, j | 0 <= i < j < |groups|
      ensures Fuller(active, groups[i], groups[j])
    {
      assert FullestFirst()(sorted[i], sorted[j]);
    }
  }

  lemma {:induction false} OnlyAhead(active: Groups, tokens: set<Token>, holding: bool, groups: seq<Group>)
    requires FullestAhead(active, groups)
    ensures FullestAhead(active, Only(active, tokens, holding, groups))
    ensures forall g :: g in Only(active, tokens, holding, groups) ==> g in groups
  {
    hide Fuller;
    if groups != [] {
      assert groups == [groups[0]] + groups[1..];
      OnlyAhead(active, tokens, holding, groups[1..]);
      var rest := Only(active, tokens, holding, groups[1..]);
      forall j | 0 <= j < |rest|
        ensures Fuller(active, groups[0], rest[j])
      {
        assert rest[j] in groups[1..];
        var k :| 0 <= k < |groups[1..]| && groups[1..][k] == rest[j];
        assert groups[k + 1] == rest[j];
      }
    }
  }

  /** Of the groups without a protected token no given up one comes before a kept one. */
  ghost predicate KeepsFullest(before: Groups, kept: set<Group>, tokens: set<Token>) {
    forall g, h :: g in before && h in before && g in kept && h !in kept && before[g] * tokens == {} ==> Fuller(before, g, h)
  }

  lemma RetainedFullest(order: seq<Group>, active: Groups, tokens: set<Token>, minimum: nat)
    requires Distinct(order) && forall g :: g in order <==> g in active
    ensures (forall g :: g in Ordered(order, active) ==> g in active)
            && KeepsFullest(active, AsGroups(RetainedGroups(Ordered(order, active), active, tokens, minimum)), tokens)
  {
    hide Fuller, Ordered, Only, Distinct;
    OrderedFacts(order, active);
    OrderedAhead(order, active);
    var ordered := Ordered(order, active);
    var inside, outside := Only(active, tokens, true, ordered), Only(active, tokens, false, ordered);
    OnlyFacts(active, tokens, true, ordered);
    OnlyFacts(active, tokens, false, ordered);
    OnlyAhead(active, tokens, false, ordered);
    var n := Min(Max(0, minimum - |inside|), |outside|);
    var kept := AsGroups(inside + outside[..n]);
    forall k | 0 <= k < n
      ensures outside[k] in kept
    {
      assert (inside + outside[..n])[|inside| + k] == outside[k];
    }
    forall g, h | g in active && h in active && g in kept && h !in kept && active[g] * tokens == {}
      ensures Fuller(active, g, h)
    {
      assert g !in inside;
      assert g in outside[..n];
      assert h !in inside + outside[..n];
      var i :| 0 <= i < n && outside[i] == g;
      var j :| 0 <= j < |outside| && outside[j] == h;
    }
  }

  function AsGroups(s: seq<Group>): set<Group> { set g | g in s }

  // ------------------------------------------------------------ pruning

  function Pruned(active: Groups, monitored: set<Token>): Groups {
    map g | g in active && active[g] * monitored != {} :: active[g] * monitored
  }

  ghost predicate PrunedAt(before: Groups, after: Groups, monitored: set<Token>, g: Group) {
    && (g in after <==> g in before && before[g] * monitored != {})
    && (g in after ==> after[g] == before[g] * monitored)
  }

  lemma PrunedEverywhere(before: Groups, after: Groups, monitored: set<Token>)
    requires Packed(before) && forall g :: PrunedAt(before, after, monitored, g)
    ensures after == Pruned(before, monitored) && Packed(after)
    ensures Assigned(after) == Assigned(before) * monitored
  {
    forall g | g in after
      ensures g in before && after[g] == before[g] * monitored != {} && |after[g]| <= |before[g]|
    {
      assert PrunedAt(before, after, monitored, g);
      SubsetSize(after[g], before[g]);
    }
    forall g | g in Pruned(before, monitored)
      ensures g in after
    {
      assert PrunedAt(before, after, monitored, g);
    }
    assert after == Pruned(before, monitored);
    forall t
      ensures t in Assigned(after) <==> t in Assigned(before) * monitored
    {
      if t in Assigned(before) && t in monitored {
        var g :| g in before && t in before[g];
        assert t in before[g] * monitored;
        assert g in after && t in after[g];
      }
      if t in Assigned(after) {
        var g :| g in after && t in after[g];
        assert g in before && t in before[g];
      }
    }
  }

  lemma RemovedAnywhere(before: Groups, monitored: set<Token>, order: seq<Group>, removed: bool)
    requires forall g :: g in order <==> g in before
    requires removed <==> exists g :: g in order && !(before[g] <= monitored)
    ensures removed <==> !(Assigned(before) <= monitored)
  {
    if removed {
      var g :| g in order && !(before[g] <= monitored);
      var t :| t in before[g] && t !in monitored;
      assert t in Assigned(before);
    }
    if !(Assigned(before) <= monitored) {
      var t :| t in Assigned(before) && t !in monitored;
      var g :| g in before && t in before[g];
      assert g in order;
    }
  }

  function StillOpen(order: seq<Group>, active: Groups): seq<Group> {
    if order == [] then []
    else if order[0] in active then [order[0]] + StillOpen(order[1..], active)
    else StillOpen(order[1..], active)
  }

  lemma {:induction false} StillOpenFacts(order: seq<Group>, active: Groups)
    requires Distinct(order)
    ensures Distinct(StillOpen(order, active))
    ensures forall g :: g in StillOpen(order, active) <==> g in order && g in active
  {
    if order != [] {
      assert order == [order[0]] + order[1..];
      StillOpenFacts(order[1..], active);
    }
  }

  class Hub {
    var order: seq<Group>          // groups in the order they were opened
    var active: Groups
    var nextGroup: nat
    var previous: map<Service, set<Token>>

    /** Between passes: a packing, listed once each, that covers what consumers had. */
    ghost predicate Valid()
      reads this
    {
      && Listed() && Packed(active) && Union(previous) <= Assigned(active)
    }

    ghost predicate Listed()
      reads this
    {
      && (forall g :: g in order <==> g in active)
      && Distinct(order)
      && (forall g :: g in active ==> g <= nextGroup)
    }

    constructor ()
      ensures Valid() && active == map[]
    {
      order, active, nextGroup, previous := [], map[], 0, map[];
    }

    /** Drops what nobody subscribes to any more, in place; empty groups close. */
    method Prune(monitored: set<Token>) returns (removedAny: bool)
      requires Listed() && Packed(active)
      modifies this`order, this`active
      ensures Listed() && Packed(active) && active == Pruned(old(active), monitored)
      ensures removedAny <==> !(old(Assigned(active)) <= monitored)
    {
      ghost var before, was := active, order;
      removedAny := PruneTokens(monitored);
      PrunedEverywhere(before, active, monitored);
      order := StillOpen(order, active);
      StillOpenFacts(was, active);
      RemovedAnywhere(before, monitored, was, removedAny);
    }

    /** The loop over the open groups. */
    method PruneTokens(monitored: set<Token>) returns (removedAny: bool)
      requires Listed()
      modifies this`active
      ensures forall g :: PrunedAt(old(active), active, monitored, g)
      ensures removedAny <==> exists g :: g in order && !(old(active[g]) <= monitored)
    {
      removedAny := false;
      var i := 0;
      ghost var before := active;
      while i < |order|
        invariant 0 <= i <= |order|
        invariant forall g :: g in order[i..] ==> g in active && g in before && active[g] == before[g]
        invariant forall g :: g !in order[i..] ==> PrunedAt(before, active, monitored, g)
        invariant removedAny <==> exists g :: g in order[..i] && !(before[g] <= monitored)
      {
        var g := order[i];
        assert order[i..] == [g] + order[i + 1..] && order[..i + 1] == order[..i] + [g];
        assert g !in order[i + 1..];
        var current := active[g] * monitored;
        RemovedSome(active[g], monitored);
        removedAny := removedAny || active[g] - current != {};
        ghost var entry := active;
        active := if current == {} then active - {g} else active[g := current];
        i := i + 1;
        forall h | h !in order[i..]
          ensures PrunedAt(before, active, monitored, h)
        {
          assert h != g ==> PrunedAt(before, entry, monitored, h);
        }
      }
      assert order[..i] == order;
    }

    /** The loop that fills listed groups in order. */
    method Fill(list: seq<Group>, tokens: seq<Token>) returns (left: seq<Token>)
      requires forall g :: g in list ==> g in active
      modifies this`active
      ensures (active, left) == Poured(list, old(active), tokens)
      ensures active.Keys == old(active.Keys)
    {
      left := tokens;
      var i := 0;
      assert list[0..] == list;
      while i < |list|
        invariant 0 <= i <= |list| && active.Keys == old(active.Keys)
        invariant forall g :: g in list[i..] ==> g in active
        invariant Poured(list[i..], active, left) == Poured(list, old(active), tokens)
      {
        var g := list[i];
        assert list[i..][0] == g && list[i..][1..] == list[i + 1..];
        var n := Room(|active[g]|, |left|);
        active := active[g := active[g] + AsSet(left[..n])];
        left := left[n..];
        i := i + 1;
      }
    }

    /** Keeps the groups with protected tokens and the fullest others, and moves the
        tokens of the rest into them as far as they fit. */
    method Compact(isProtected: set<Token>, minimum: nat)
      requires Listed() && Packed(active)
      modifies this`order, this`active
      ensures Listed()
      ensures Packed(active)
      ensures Assigned(active) <= old(Assigned(active))
      ensures Stays(old(active), active, isProtected)
      ensures |active| == Max(|Protected(old(active), isProtected)|, Min(minimum, |old(active)|))
      ensures KeepsFullest(old(active), active.Keys, isProtected)
      ensures forall g :: g in active ==> g in old(active) && old(active)[g] <= active[g]
    {
      hide KeepsFullest, Packed, Assigned, Stays, Protected, Ordered, RetainedGroups, Poured, StillOpen, Distinct;
      var ordered := Ordered(order, active);
      OrderedFacts(order, active);
      var retained := RetainedGroups(ordered, active, isProtected, minimum);
      RetainedFacts(ordered, active, isProtected, minimum);
      RetainedFullest(order, active, isProtected, minimum);
      ghost var before, was := active, order;
      MoveTokens(ordered, retained);
      DistinctSize(retained, active.Keys);
      ProtectedStay(before, active, retained, isProtected);
      assert forall g :: g in active ==> g in was;
      order := StillOpen(order, active);
      StillOpenFacts(was, active);
    }

    /** The loop over the groups that are not retained. */
    method MoveTokens(ordered: seq<Group>, retained: seq<Group>)
      requires Distinct(ordered) && (forall g :: g in ordered <==> g in active) && (forall g :: g in retained ==> g in active)
      requires Packed(active)
      modifies this`active
      ensures active.Keys == AsGroups(retained) && Packed(active) && Assigned(active) <= old(Assigned(active))
      ensures forall g :: g in retained ==> g in old(active) && old(active[g]) <= active[g]
    {
      hide Packed, Assigned, Poured, Distinct;
      ghost var before := active;
      var rest := ordered;
      assert AsGroups(retained) + AsGroups(ordered) == active.Keys;
      while rest != []
        invariant Distinct(rest) && Compacting(before, active, retained, rest)
        decreases |rest|
      {
        var group := rest[0];
        DistinctTail(rest);
        rest := rest[1..];
        if group in retained {
          assert AsGroups(retained) + AsGroups([group] + rest) == AsGroups(retained) + AsGroups(rest);
          continue;
        }
        var moving := SortedTokens(active[group]);
        GroupMoved(before, active, retained, group, rest, moving);
        active := active - {group};
        var _ := Fill(retained, moving);
      }
      assert AsGroups(rest) == {};
    }

    /** Opens groups for the tokens that fit nowhere, two hundred at a time. */
    method OpenGroups(left: seq<Token>)
      requires Listed() && Packed(active) && Distinct(left) && AsSet(left) !! Assigned(active)
      modifies this`order, this`active, this`nextGroup
      ensures Listed() && Packed(active) && Assigned(active) == old(Assigned(active)) + AsSet(left)
      ensures Grows(old(active), active)
      ensures |active| == |old(active)| + MinimumGroups(|left|)
      ensures nextGroup == old(nextGroup) + MinimumGroups(|left|)
    {
      hide Packed, Assigned, Distinct, AsSet, MinimumGroups, Grows, Opening;
      var rest := left;
      ghost var chunks, before := 0, active;
      NothingOpened(active, left);
      while rest != []
        invariant |rest| == |left| - Min(GROUP_SIZE * chunks, |left|)
        invariant chunks > 0 ==> GROUP_SIZE * (chunks - 1) < |left|
        invariant Listed() && nextGroup == old(nextGroup) + chunks
        invariant Opening(before, left, active, rest, chunks)
        decreases |rest|
      {
        var n := Min(GROUP_SIZE, |rest|);
        assert nextGroup + 1 !in active;
        ChunkOpened(before, left, active, rest, chunks, nextGroup + 1, n);
        OpenGroup(AsSet(rest[..n]));
        rest := rest[n..];
        chunks := chunks + 1;
      }
      ChunksAreMinimal(|left|, chunks);
      AllOpened(before, left, active, chunks);
    }

    method OpenGroup(tokens: set<Token>)
      requires Listed()
      modifies this`order, this`active, this`nextGroup
      ensures Listed() && nextGroup == old(nextGroup) + 1 && active == old(active)[nextGroup := tokens]
    {
      hide Distinct;
      nextGroup := nextGroup + 1;
      ListedMore(order, active, nextGroup, tokens);
      active := active[nextGroup := tokens];
      order := order + [nextGroup];
    }

    /** Gives every monitored token without a group a place: room first, then new groups. */
    method Cover(monitored: set<Token>)
      requires Listed() && Packed(active) && Assigned(active) <= monitored
      modifies this`order, this`active, this`nextGroup
      ensures Listed() && Packed(active) && Assigned(active) == monitored
      ensures Grows(old(active), active)
      ensures nextGroup > old(nextGroup) ==> |active| == MinimumGroups(|monitored|)
      ensures |active| == |old(active)| + (nextGroup - old(nextGroup)) && nextGroup >= old(nextGroup)
    {
      hide Packed, Distinct, Poured, Assigned, AsSet, MinimumGroups, Grows;
      var additions := SortedTokens(monitored - Assigned(active));
      FilledFacts(order, active, additions, monitored);
      ghost var before := active;
      var left := Fill(order, additions);
      ghost var filled := active;
      OpenGroups(left);
      GrowsTwice(before, filled, active);
      CountAfterOpening(filled, left, active, monitored);
    }

    /** One pass over the current consumers; `accepted` are those whose preparation succeeded.
        What an unchanged consumer holds is protected even if its preparation fails, as long
        as somebody accepted still monitors it. */
    method Sync(asked: map<Service, set<Token>>, accepted: set<Service>)
      requires Valid()
      modifies this
      ensures Valid() && Packed(active)
      ensures previous == map s | s in asked && s in accepted :: asked[s]
      ensures Assigned(active) == Union(previous)
      ensures forall s :: s in previous && s in old(previous) && old(previous)[s] == previous[s] ==>
                Stays(old(active), active, previous[s]) && previous[s] <= old(Assigned(active))
      ensures nextGroup > old(nextGroup) ==> |active| == MinimumGroups(|Union(previous)|)
      ensures var m, kept := MinimumGroups(|Union(previous)|), Pruned(old(active), Union(previous));
              !(old(Assigned(active)) <= Union(previous)) && |kept| > m ==>
                |active| == Max(m, |Protected(kept, StillWanted(old(previous), asked, Union(previous)))|)
      ensures Stays(old(active), active, StillWanted(old(previous), asked, Union(previous)))
    {
      hide Packed, Assigned, Stays, Protected, Pruned, MinimumGroups, Unchanged, Union, StillWanted;
      var consumers := map s | s in asked && s in accepted :: asked[s];
      var monitored := Union(consumers);
      var isProtected := StillWanted(previous, asked, monitored);
      ghost var start, old_previous := active, previous;
      UnchangedCovered(previous, consumers, start);
      StillWantedCovers(previous, asked, accepted, start);
      var removedAny := Prune(monitored);
      ghost var pruned := active;
      PrunedAssigned(start, monitored);
      var minimum := MinimumGroups(|monitored|);
      ghost var compacted := removedAny && |active| > minimum;
      if removedAny && |active| > minimum {
        Compact(isProtected, minimum);
      }
      ghost var middle := active;
      Cover(monitored);
      previous := consumers;
      StaysWithFewer(pruned, middle, isProtected, Unchanged(old_previous, consumers));
      PassKeepsUnchanged(start, pruned, middle, active, old_previous, consumers);
      PassKeeps(start, pruned, middle, active, isProtected, monitored);
      if compacted {
        MinimumIsEnough(active, middle, monitored, minimum);
      }
    }
  }

  lemma DistinctTail(s: seq<Group>)
    requires Distinct(s) && s != []
    ensures s == [s[0]] + s[1..] && s[0] !in s[1..] && Distinct(s[1..])
  {
  }

  ghost predicate Compacting(before: Groups, active: Groups, retained: seq<Group>, rest: seq<Group>) {
    && active.Keys == AsGroups(retained) + AsGroups(rest)
    && Packed(active) && Assigned(active) <= Assigned(before)
    && forall g :: g in retained ==> g in before && before[g] <= active[g]
  }

  /** One group's tokens move into the retained groups as far as they fit. */
  lemma GroupMoved(before: Groups, active: Groups, retained: seq<Group>, group: Group, rest: seq<Group>, moving: seq<Token>)
    requires Compacting(before, active, retained, [group] + rest)
    requires group !in retained && group !in rest
    requires AsSet(moving) == active[group] && Distinct(moving)
    ensures (forall g :: g in retained ==> g in active - {group})
    ensures Compacting(before, Poured(retained, active - {group}, moving).0, retained, rest)
  {
    var without := active - {group};
    GroupRemoved(active, group);
    InGroup(active, group);
    assert without.Keys == AsGroups(retained) + AsGroups(rest);
    assert forall g :: g in retained ==> g in without.Keys;
    PouredKeeps(retained, without, moving);
    var after := Poured(retained, without, moving).0;
    FilledStaysPacked(without, after);
  }

  lemma InGroup(active: Groups, g: Group)
    requires g in active
    ensures active[g] <= Assigned(active)
  {
  }

  /** Growing groups that stay disjoint and bounded keeps them a packing. */
  lemma FilledStaysPacked(before: Groups, after: Groups)
    requires Packed(before) && Disjoint(after) && Bounded(after) && after.Keys == before.Keys
    requires Grows(before, after)
    ensures Packed(after)
  {
  }

  ghost predicate Opening(before: Groups, left: seq<Token>, active: Groups, rest: seq<Token>, chunks: nat) {
    && Packed(active) && Distinct(rest) && AsSet(rest) !! Assigned(active)
    && Assigned(active) + AsSet(rest) == Assigned(before) + AsSet(left)
    && Grows(before, active)
    && |active| == |before| + chunks
  }

  /** What filling the open groups with the unassigned tokens leaves. */
  lemma FilledFacts(order: seq<Group>, active: Groups, tokens: seq<Token>, monitored: set<Token>)
    requires Packed(active) && Assigned(active) <= monitored && (forall g :: g in order <==> g in active)
    requires Distinct(tokens) && AsSet(tokens) == monitored - Assigned(active)
    ensures var (after, left) := Poured(order, active, tokens);
            && Packed(after) && after.Keys == active.Keys && Grows(active, after)
            && Distinct(left) && AsSet(left) !! Assigned(after) && Assigned(after) + AsSet(left) == monitored
            && (left != [] ==> |Assigned(after)| == GROUP_SIZE * |after|)
  {
    var (after, left) := Poured(order, active, tokens);
    PouredKeeps(order, active, tokens);
    hide Disjoint, Bounded, NoneEmpty, Distinct, Poured, Assigned, AsSet, Grows;
    FilledStaysPacked(active, after);
    if left != [] {
      PouredFull(order, active, tokens);
      FullGroupsCount(after);
    }
  }

  lemma NothingOpened(active: Groups, left: seq<Token>)
    requires Packed(active) && Distinct(left) && AsSet(left) !! Assigned(active)
    ensures Opening(active, left, active, left, 0)
  {
  }

  lemma AllOpened(before: Groups, left: seq<Token>, active: Groups, chunks: nat)
    requires Opening(before, left, active, [], chunks)
    ensures Packed(active) && Assigned(active) == Assigned(before) + AsSet(left)
    ensures Grows(before, active) && |active| == |before| + chunks
  {
    assert AsSet([]) == {};
  }

  lemma ChunkOpened(before: Groups, left: seq<Token>, active: Groups, rest: seq<Token>, chunks: nat, g: Group, n: nat)
    requires Opening(before, left, active, rest, chunks) && g !in active && 0 < n <= |rest| && n <= GROUP_SIZE
    ensures Opening(before, left, active[g := AsSet(rest[..n])], rest[n..], chunks + 1)
  {
    hide Packed, Assigned, Distinct, AsSet;
    SplitTokens(rest, n);
    GroupAdded(active, g, rest[..n]);
  }

  /** A compacted packing has room for everything, so nothing is opened after it. */
  lemma MinimumIsEnough(active: Groups, middle: Groups, monitored: set<Token>, minimum: nat)
    requires minimum == MinimumGroups(|monitored|) && |middle| >= minimum
    requires |active| > |middle| ==> |active| == minimum
    requires |active| >= |middle|
    ensures |active| == |middle|
  {
  }

  /** The tokens of the consumers whose subscription is what it was. */
  function Unchanged(before: map<Service, set<Token>>, now: map<Service, set<Token>>): set<Token> {
    set s, t | s in now && s in before && before[s] == now[s] && t in now[s] :: t
  }

  /** What unchanged consumers asked for and somebody still monitors. */
  function StillWanted(before: map<Service, set<Token>>, asked: map<Service, set<Token>>, monitored: set<Token>)
    : set<Token>
  {
    Unchanged(before, asked) * monitored
  }

  /** The accepted unchanged consumers' tokens are among the protected ones. */
  lemma StillWantedCovers(before: map<Service, set<Token>>, asked: map<Service, set<Token>>, accepted: set<Service>,
                          active: Groups)
    requires Union(before) <= Assigned(active)
    ensures var now := map s | s in asked && s in accepted :: asked[s];
            && Unchanged(before, now) <= StillWanted(before, asked, Union(now))
            && StillWanted(before, asked, Union(now)) <= Assigned(active)
            && StillWanted(before, asked, Union(now)) <= Union(now)
  {
    var now := map s | s in asked && s in accepted :: asked[s];
    UnchangedCovered(before, now, active);
    UnchangedCovered(before, asked, active);
    forall t | t in Unchanged(before, now)
      ensures t in Unchanged(before, asked)
    {
      var s :| s in now && s in before && before[s] == now[s] && t in now[s];
      assert s in asked && before[s] == asked[s] && t in asked[s];
    }
  }

  lemma StaysWithFewer(before: Groups, after: Groups, kept: set<Token>, fewer: set<Token>)
    requires Stays(before, after, kept) && fewer <= kept
    ensures Stays(before, after, fewer)
  {
  }

  /** A whole pass moves no protected token. */
  lemma PassKeeps(start: Groups, pruned: Groups, middle: Groups, after: Groups, kept: set<Token>, monitored: set<Token>)
    requires Stays(start, pruned, monitored) && Stays(pruned, middle, kept) && Grows(middle, after) && kept <= monitored
    ensures Stays(start, after, kept)
  {
  }

  lemma UnchangedCovered(before: map<Service, set<Token>>, now: map<Service, set<Token>>, active: Groups)
    requires Union(before) <= Assigned(active)
    ensures Unchanged(before, now) <= Assigned(active) && Unchanged(before, now) <= Union(now)
  {
    forall t | t in Unchanged(before, now)
      ensures t in Union(before) && t in Union(now)
    {
      var s :| s in now && s in before && before[s] == now[s] && t in now[s];
    }
  }

  lemma PrunedAssigned(active: Groups, monitored: set<Token>)
    requires Packed(active)
    ensures Assigned(Pruned(active, monitored)) == Assigned(active) * monitored
    ensures Stays(active, Pruned(active, monitored), monitored)
  {
    forall g
      ensures PrunedAt(active, Pruned(active, monitored), monitored, g)
    {
    }
    PrunedEverywhere(active, Pruned(active, monitored), monitored);
    forall g, t | g in active && t in active[g] && t in monitored
      ensures g in Pruned(active, monitored) && t in Pruned(active, monitored)[g]
    {
      assert t in active[g] * monitored;
    }
  }

  lemma GroupRemoved(active: Groups, g: Group)
    requires g in active && Packed(active)
    ensures Packed(active - {g}) && Assigned(active - {g}) == Assigned(active) - active[g]
  {
    var rest := active - {g};
    forall t
      ensures t in Assigned(rest) <==> t in Assigned(active) && t !in active[g]
    {
      if t in Assigned(rest) {
        var h :| h in rest && t in rest[h];
        assert h in active && h != g;
      }
      if t in Assigned(active) && t !in active[g] {
        var h :| h in active && t in active[h];
        assert h in rest && t in rest[h];
      }
    }
  }

  lemma GroupAdded(active: Groups, g: Group, chunk: seq<Token>)
    requires g !in active && Packed(active) && chunk != [] && |AsSet(chunk)| <= GROUP_SIZE
    requires AsSet(chunk) !! Assigned(active)
    ensures var after := active[g := AsSet(chunk)];
            Packed(after) && Assigned(after) == Assigned(active) + AsSet(chunk) && |after| == |active| + 1
  {
    hide Assigned, Packed;
    assert chunk[0] in AsSet(chunk);
    hide AsSet;
    PackedAfterAdding(active, g, AsSet(chunk));
    AssignedAfterAdding(active, g, AsSet(chunk));
    assert active[g := AsSet(chunk)].Keys == active.Keys + {g};
  }

  lemma PackedAfterAdding(active: Groups, g: Group, more: set<Token>)
    requires g !in active && Packed(active) && more != {} && |more| <= GROUP_SIZE && more !! Assigned(active)
    ensures Packed(active[g := more])
  {
    forall h, t | h in active && t in active[h]
      ensures t !in more
    {
      assert t in Assigned(active);
    }
  }

  lemma ListedMore(order: seq<Group>, active: Groups, g: Group, tokens: set<Token>)
    requires Distinct(order) && (forall h :: h in order <==> h in active) && g !in active
    ensures Distinct(order + [g]) && forall h :: h in order + [g] <==> h in active[g := tokens]
  {
    assert g !in order;
  }

  lemma AssignedAfterAdding(active: Groups, g: Group, tokens: set<Token>)
    requires g !in active
    ensures Assigned(active[g := tokens]) == Assigned(active) + tokens
  {
    var after := active[g := tokens];
    forall t
      ensures t in Assigned(after) <==> t in Assigned(active) + tokens
    {
      if t in Assigned(active) {
        var h :| h in active && t in active[h];
        assert h in after && t in after[h];
      }
      if t in tokens {
        assert g in after && t in after[g];
      }
    }
  }

  lemma ProtectedStay(before: Groups, after: Groups, retained: seq<Group>, isProtected: set<Token>)
    requires Protected(before, isProtected) <= AsGroups(retained) && after.Keys == AsGroups(retained)
    requires forall g :: g in retained ==> g in before && before[g] <= after[g]
    ensures Stays(before, after, isProtected)
  {
    forall g, t | g in before && t in before[g] && t in isProtected
      ensures g in after && t in after[g]
    {
      assert t in before[g] * isProtected;
      assert g in Protected(before, isProtected);
    }
  }

  /** If groups had to be opened, every other group was full. */
  lemma CountAfterOpening(filled: Groups, left: seq<Token>, after: Groups, monitored: set<Token>)
    requires Distinct(left) && AsSet(left) !! Assigned(filled) && Assigned(filled) + AsSet(left) == monitored
    requires left != [] ==> |Assigned(filled)| == GROUP_SIZE * |filled|
    requires |after| == |filled| + MinimumGroups(|left|)
    ensures if left != [] then |after| == MinimumGroups(|monitored|) else |after| == |filled|
  {
    if left != [] {
      DistinctSize(left, AsSet(left));
      DisjointSize(Assigned(filled), AsSet(left));
      OpenedIsMinimal(|filled|, |left|);
    }
  }

  lemma PassKeepsUnchanged(start: Groups, pruned: Groups, middle: Groups, after: Groups,
                           before: map<Service, set<Token>>, now: map<Service, set<Token>>)
    requires Stays(start, pruned, Union(now)) && Stays(pruned, middle, Unchanged(before, now))
    requires Grows(middle, after)
    requires Unchanged(before, now) <= Assigned(start) && Unchanged(before, now) <= Union(now)
    ensures forall s :: s in now && s in before && before[s] == now[s] ==>
              Stays(start, after, now[s]) && now[s] <= Assigned(start)
  {
    forall s | s in now && s in before && before[s] == now[s]
      ensures Stays(start, after, now[s]) && now[s] <= Assigned(start)
    {
      forall t | t in now[s]
        ensures t in Unchanged(before, now) && t in Union(now)
      {
      }
    }
  }
}
