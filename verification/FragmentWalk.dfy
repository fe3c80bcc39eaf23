/**
 * The walk over a GraphQL operation and its fragments, which may refer to each other in cycles, and the check for
 * repeated fields that is built on it.
 */
module FragmentWalk {
  import opened Wrappers

  /** A field without a selection set has no subselections. */
  datatype Selection =
    | Field(name: string, selections: seq<Selection>)
    | Inline(selections: seq<Selection>)
    | Spread(fragment: string)

  datatype Definition =
    | FragmentDefinition(name: string, selections: seq<Selection>)
    | OperationDefinition(kind: string, selections: seq<Selection>)

  type Fragments = map<string, seq<Selection>>

  // ---- the walk, as a function ------------------------------------------------------------------------------

  /** What a walk finds and which fragments it has entered when it ends. */
  datatype Walked = Walked(found: seq<string>, visited: set<string>)

  lemma OneFewer(all: set<string>, visited: set<string>, x: string)
    requires x in all && x !in visited
    ensures |all - (visited + {x})| < |all - visited|
  {
    assert all - visited == all - (visited + {x}) + {x};
  }

  lemma NoMore(all: set<string>, visited: set<string>, later: set<string>)
    requires visited <= later
    ensures |all - later| <= |all - visited|
  {
    assert all - visited == (all - later) + (all - visited) * later;
  }

  /** Depth first: a field before its subselections, a fragment where it is first spread, and never again. */
  function Walk(frags: Fragments, sels: seq<Selection>, visited: set<string>): (r: Walked)
    ensures visited <= r.visited <= visited + frags.Keys
    decreases |frags.Keys - visited|, sels, 1
  {
    if sels == [] then Walked([], visited)
    else
      var first := WalkOne(frags, sels, visited);
      assert |frags.Keys - first.visited| <= |frags.Keys - visited| by { NoMore(frags.Keys, visited, first.visited); }
      var rest := Walk(frags, sels[1..], first.visited);
      Walked(first.found + rest.found, rest.visited)
  }

  /** The first selection alone. */
  function WalkOne(frags: Fragments, sels: seq<Selection>, visited: set<string>): (r: Walked)
    requires sels != []
    ensures visited <= r.visited <= visited + frags.Keys
    decreases |frags.Keys - visited|, sels, 0
  {
    match sels[0]
    case Field(name, selections) =>
      var inner := Walk(frags, selections, visited);
      Walked([name] + inner.found, inner.visited)
    case Inline(selections) => Walk(frags, selections, visited)
    case Spread(name) =>
      if name in visited || name !in frags then Walked([], visited)
      else
        assert |frags.Keys - (visited + {name})| < |frags.Keys - visited| by { OneFewer(frags.Keys, visited, name); }
        Walk(frags, frags[name], visited + {name})
  }

  // ---- what is where ----------------------------------------------------------------------------------------

  /** The field names of a tree itself, fragments not followed, in document order. */
  function Names(sels: seq<Selection>): seq<string>
    decreases sels, 1
  {
    if sels == [] then [] else FirstNames(sels) + Names(sels[1..])
  }

  function FirstNames(sels: seq<Selection>): seq<string>
    requires sels != []
    decreases sels, 0
  {
    match sels[0]
    case Field(name, selections) => [name] + Names(selections)
    case Inline(selections) => Names(selections)
    case Spread(_) => []
  }

  /** The fragments a tree itself spreads. */
  function Spreads(sels: seq<Selection>): set<string>
    decreases sels, 1
  {
    if sels == [] then {} else FirstSpreads(sels) + Spreads(sels[1..])
  }

  function FirstSpreads(sels: seq<Selection>): set<string>
    requires sels != []
    decreases sels, 0
  {
    match sels[0]
    case Field(_, selections) => Spreads(selections)
    case Inline(selections) => Spreads(selections)
    case Spread(name) => {name}
  }

  /** A chain of spreads, each in the fragment before it, the first one of these. */
  predicate Path(frags: Fragments, spreads: set<string>, path: seq<string>)
    decreases path
  {
    path != [] ==> path[0] in spreads && path[0] in frags && Path(frags, Spreads(frags[path[0]]), path[1..])
  }

  ghost predicate Reachable(frags: Fragments, spreads: set<string>, name: string) {
    exists path :: path != [] && Path(frags, spreads, path) && path[|path| - 1] == name
  }

  // ---- the walk enters exactly what is reachable ------------------------------------------------------------

  lemma ReachableAtOnce(frags: Fragments, spreads: set<string>, name: string)
    requires name in spreads && name in frags
    ensures Reachable(frags, spreads, name)
  {
    assert Path(frags, spreads, [name]);
  }

  lemma ReachableThrough(frags: Fragments, spreads: set<string>, via: string, name: string)
    requires via in spreads && via in frags && Reachable(frags, Spreads(frags[via]), name)
    ensures Reachable(frags, spreads, name)
  {
    var path :| path != [] && Path(frags, Spreads(frags[via]), path) && path[|path| - 1] == name;
    assert ([via] + path)[1..] == path;
    assert Path(frags, spreads, [via] + path);
  }

  lemma ReachableFromMore(frags: Fragments, fewer: set<string>, more: set<string>, name: string)
    requires fewer <= more && Reachable(frags, fewer, name)
    ensures Reachable(frags, more, name)
  {
    var path :| path != [] && Path(frags, fewer, path) && path[|path| - 1] == name;
    assert Path(frags, more, path);
  }

  lemma {:induction false} EntersOnlyReachable(frags: Fragments, sels: seq<Selection>, visited: set<string>, name: string)
    requires name in Walk(frags, sels, visited).visited && name !in visited
    ensures Reachable(frags, Spreads(sels), name)
    decreases |frags.Keys - visited|, sels, 1
  {
    if sels != [] {
      var first := WalkOne(frags, sels, visited);
      if name in first.visited {
        FirstEntersOnlyReachable(frags, sels, visited, name);
        ReachableFromMore(frags, FirstSpreads(sels), Spreads(sels), name);
      } else {
        NoMore(frags.Keys, visited, first.visited);
        EntersOnlyReachable(frags, sels[1..], first.visited, name);
        ReachableFromMore(frags, Spreads(sels[1..]), Spreads(sels), name);
      }
    }
  }

  lemma {:induction false} FirstEntersOnlyReachable(
    frags: Fragments, sels: seq<Selection>, visited: set<string>, name: string)
    requires sels != [] && name in WalkOne(frags, sels, visited).visited && name !in visited
    ensures Reachable(frags, FirstSpreads(sels), name)
    decreases |frags.Keys - visited|, sels, 0
  {
    match sels[0]
    case Field(_, selections) => EntersOnlyReachable(frags, selections, visited, name);
    case Inline(selections) => EntersOnlyReachable(frags, selections, visited, name);
    case Spread(f) =>
      if name == f {
        ReachableAtOnce(frags, {f}, f);
      } else {
        OneFewer(frags.Keys, visited, f);
        EntersOnlyReachable(frags, frags[f], visited + {f}, name);
        ReachableThrough(frags, {f}, f, name);
      }
  }

  /** Everything spread in these fragments has been entered. */
  ghost predicate Closed(frags: Fragments, entered: set<string>, visited: set<string>) {
    forall f :: f in entered && f in frags ==> Spreads(frags[f]) * frags.Keys <= visited
  }

  lemma {:induction false} WalkCloses(frags: Fragments, sels: seq<Selection>, visited: set<string>)
    ensures var r := Walk(frags, sels, visited);
            Spreads(sels) * frags.Keys <= r.visited && Closed(frags, r.visited - visited, r.visited)
    decreases |frags.Keys - visited|, sels, 1
  {
    if sels != [] {
      var first := WalkOne(frags, sels, visited);
      FirstCloses(frags, sels, visited);
      NoMore(frags.Keys, visited, first.visited);
      WalkCloses(frags, sels[1..], first.visited);
    }
  }

  lemma {:induction false} FirstCloses(frags: Fragments, sels: seq<Selection>, visited: set<string>)
    requires sels != []
    ensures var r := WalkOne(frags, sels, visited);
            FirstSpreads(sels) * frags.Keys <= r.visited && Closed(frags, r.visited - visited, r.visited)
    decreases |frags.Keys - visited|, sels, 0
  {
    match sels[0]
    case Field(_, selections) => WalkCloses(frags, selections, visited);
    case Inline(selections) => WalkCloses(frags, selections, visited);
    case Spread(f) =>
      if f !in visited && f in frags {
        OneFewer(frags.Keys, visited, f);
        WalkCloses(frags, frags[f], visited + {f});
      }
  }

  lemma {:induction false} ClosedHoldsPaths(
    frags: Fragments, spreads: set<string>, closed: set<string>, path: seq<string>)
    requires spreads * frags.Keys <= closed && Closed(frags, closed, closed)
    requires path != [] && Path(frags, spreads, path)
    ensures path[|path| - 1] in closed
    decreases path
  {
    if |path| > 1 {
      assert path[0] in closed;
      ClosedHoldsPaths(frags, Spreads(frags[path[0]]), closed, path[1..]);
    }
  }

  /** On any document, cyclic or not, the walk enters exactly the fragments a chain of spreads reaches. */
  lemma EntersExactlyTheReachable(frags: Fragments, operation: seq<Selection>, name: string)
    ensures name in Walk(frags, operation, {}).visited <==> Reachable(frags, Spreads(operation), name)
  {
    var r := Walk(frags, operation, {});
    if name in r.visited {
      EntersOnlyReachable(frags, operation, {}, name);
    }
    if Reachable(frags, Spreads(operation), name) {
      var path :| path != [] && Path(frags, Spreads(operation), path) && path[|path| - 1] == name;
      WalkCloses(frags, operation, {});
      ClosedHoldsPaths(frags, Spreads(operation), r.visited, path);
    }
  }

  // ---- it finds each body once ------------------------------------------------------------------------------

  /** The field names of these fragments' own bodies, each body once. */
  ghost function BodyNames(frags: Fragments, names: set<string>): multiset<string>
    requires names <= frags.Keys
    decreases |names|
  {
    if names == {} then multiset{}
    else
      var f :| f in names;
      multiset(Names(frags[f])) + BodyNames(frags, names - {f})
  }

  lemma {:induction false} BodyNamesPick(frags: Fragments, names: set<string>, f: string)
    requires names <= frags.Keys && f in names
    ensures BodyNames(frags, names) == multiset(Names(frags[f])) + BodyNames(frags, names - {f})
    decreases |names|
  {
    var g :| g in names && BodyNames(frags, names) == multiset(Names(frags[g])) + BodyNames(frags, names - {g});
    if g != f {
      BodyNamesPick(frags, names - {g}, f);
      BodyNamesPick(frags, names - {f}, g);
      assert names - {g} - {f} == names - {f} - {g};
    }
  }

  lemma {:induction false} BodyNamesSplit(frags: Fragments, a: set<string>, b: set<string>)
    requires a <= frags.Keys && b <= frags.Keys && a !! b
    ensures BodyNames(frags, a + b) == BodyNames(frags, a) + BodyNames(frags, b)
    decreases |a|
  {
    if a == {} {
      assert a + b == b;
    } else {
      var f :| f in a;
      assert a + b - {f} == (a - {f}) + b;
      hide BodyNames, Names;
      BodyNamesPick(frags, a, f);
      BodyNamesPick(frags, a + b, f);
      BodyNamesSplit(frags, a - {f}, b);
    }
  }

  lemma {:induction false} WalkCounts(frags: Fragments, sels: seq<Selection>, visited: set<string>)
    ensures var r := Walk(frags, sels, visited);
            && r.visited - visited <= frags.Keys
            && multiset(r.found) == multiset(Names(sels)) + BodyNames(frags, r.visited - visited)
    decreases |frags.Keys - visited|, sels, 1
  {
    var r := Walk(frags, sels, visited);
    if sels == [] {
      assert r.visited - visited == {};
    } else {
      var first := WalkOne(frags, sels, visited);
      FirstCounts(frags, sels, visited);
      NoMore(frags.Keys, visited, first.visited);
      WalkCounts(frags, sels[1..], first.visited);
      BodyNamesSplit(frags, first.visited - visited, r.visited - first.visited);
      assert r.visited - visited == (first.visited - visited) + (r.visited - first.visited);
    }
  }

  lemma {:induction false} FirstCounts(frags: Fragments, sels: seq<Selection>, visited: set<string>)
    requires sels != []
    ensures var r := WalkOne(frags, sels, visited);
            && r.visited - visited <= frags.Keys
            && multiset(r.found) == multiset(FirstNames(sels)) + BodyNames(frags, r.visited - visited)
    decreases |frags.Keys - visited|, sels, 0
  {
    var r := WalkOne(frags, sels, visited);
    match sels[0]
    case Field(_, selections) => WalkCounts(frags, selections, visited);
    case Inline(selections) => WalkCounts(frags, selections, visited);
    case Spread(f) =>
      if f !in visited && f in frags {
        OneFewer(frags.Keys, visited, f);
        WalkCounts(frags, frags[f], visited + {f});
        BodyNamesPick(frags, r.visited - visited, f);
        assert r.visited - visited - {f} == r.visited - (visited + {f});
      } else {
        assert r.visited - visited == {};
      }
  }

  /** What is found is every name of the operation's own tree and of each reachable fragment's body, once each. */
  lemma FindsEachBodyOnce(frags: Fragments, operation: seq<Selection>)
    ensures var r := Walk(frags, operation, {});
            && r.visited <= frags.Keys
            && multiset(r.found) == multiset(Names(operation)) + BodyNames(frags, r.visited)
  {
    WalkCounts(frags, operation, {});
    assert Walk(frags, operation, {}).visited - {} == Walk(frags, operation, {}).visited;
  }

  // ---- in document order --------------------------------------------------------------------------------------

  function Weight(sels: seq<Selection>): nat
    decreases sels, 1
  {
    if sels == [] then 0 else FirstWeight(sels) + Weight(sels[1..])
  }

  function FirstWeight(sels: seq<Selection>): nat
    requires sels != []
    decreases sels, 0
  {
    match sels[0]
    case Field(_, selections) => 1 + Weight(selections)
    case Inline(selections) => 1 + Weight(selections)
    case Spread(_) => 1
  }

  lemma {:induction false} WeightAdds(a: seq<Selection>, b: seq<Selection>)
    ensures Weight(a + b) == Weight(a) + Weight(b)
    decreases |a|
  {
    if a == [] {
      assert a + b == b;
    } else {
      assert (a + b)[1..] == a[1..] + b;
      WeightAdds(a[1..], b);
    }
  }

  /** Reading from a single list: what stands first is read next, and what it contains is put in its place. */
  function Read(frags: Fragments, todo: seq<Selection>, visited: set<string>): seq<string>
    decreases |frags.Keys - visited|, Weight(todo)
  {
    if todo == [] then []
    else
      var rest := todo[1..];
      match todo[0]
      case Field(name, selections) =>
        assert Weight(selections + rest) < Weight(todo) by { WeightAdds(selections, rest); }
        [name] + Read(frags, selections + rest, visited)
      case Inline(selections) =>
        assert Weight(selections + rest) < Weight(todo) by { WeightAdds(selections, rest); }
        Read(frags, selections + rest, visited)
      case Spread(name) =>
        if name in visited || name !in frags then Read(frags, rest, visited)
        else
          assert |frags.Keys - (visited + {name})| < |frags.Keys - visited| by { OneFewer(frags.Keys, visited, name); }
          Read(frags, frags[name] + rest, visited + {name})
  }

  lemma JoinFound(a: seq<string>, b: seq<string>, c: seq<string>)
    ensures a + (b + c) == (a + b) + c
  {
  }

  lemma {:induction false} WalkReads(frags: Fragments, sels: seq<Selection>, after: seq<Selection>, visited: set<string>)
    ensures var r := Walk(frags, sels, visited);
            Read(frags, sels + after, visited) == r.found + Read(frags, after, r.visited)
    decreases |frags.Keys - visited|, sels, 1
  {
    if sels == [] {
      assert sels + after == after;
      assert Walk(frags, sels, visited) == Walked([], visited);
      hide Walk, Read;
    } else {
      var first := WalkOne(frags, sels, visited);
      var later := Walk(frags, sels[1..], first.visited);
      var rest := sels[1..] + after;
      assert sels + after == [sels[0]] + rest;
      assert Walk(frags, sels, visited) == Walked(first.found + later.found, later.visited);
      hide *;
      NoMore(frags.Keys, visited, first.visited);
      WalkReads(frags, sels[1..], after, first.visited);
      FirstReads(frags, sels, rest, visited);
      JoinFound(first.found, later.found, Read(frags, after, later.visited));
    }
  }

  lemma {:induction false} FirstReads(frags: Fragments, sels: seq<Selection>, rest: seq<Selection>, visited: set<string>)
    requires sels != []
    ensures var first := WalkOne(frags, sels, visited);
            Read(frags, [sels[0]] + rest, visited) == first.found + Read(frags, rest, first.visited)
    decreases |frags.Keys - visited|, sels, 0
  {
    assert ([sels[0]] + rest)[1..] == rest;
    match sels[0]
    case Field(_, selections) => WalkReads(frags, selections, rest, visited);
    case Inline(selections) => WalkReads(frags, selections, rest, visited);
    case Spread(f) =>
      if f !in visited && f in frags {
        OneFewer(frags.Keys, visited, f);
        WalkReads(frags, frags[f], rest, visited + {f});
      }
  }

  /** The nested walk finds names in the order of reading the document from one list. */
  lemma FindsInReadingOrder(frags: Fragments, operation: seq<Selection>)
    ensures Walk(frags, operation, {}).found == Read(frags, operation, {})
  {
    WalkReads(frags, operation, [], {});
    assert operation + [] == operation;
  }

  // ---- the walk, as it runs ---------------------------------------------------------------------------------

  /** The matched names of a list, in order, repetitions included. */
  function Keep(matched: set<string>, names: seq<string>): seq<string> {
    if names == [] then []
    else (if names[0] in matched then [names[0]] else []) + Keep(matched, names[1..])
  }

  lemma {:induction false} KeepJoins(matched: set<string>, a: seq<string>, b: seq<string>)
    ensures Keep(matched, a + b) == Keep(matched, a) + Keep(matched, b)
  {
    if a == [] {
      assert a + b == b;
    } else {
      assert (a + b)[1..] == a[1..] + b;
      KeepJoins(matched, a[1..], b);
    }
  }

  lemma {:induction false} KeepCounts(matched: set<string>, names: seq<string>, x: string)
    ensures multiset(Keep(matched, names))[x] == if x in matched then multiset(names)[x] else 0
  {
    if names != [] {
      KeepCounts(matched, names[1..], x);
      assert names == [names[0]] + names[1..];
    }
  }

  /** The last definition of a name is the one that counts. */
  function FragmentMap(definitions: seq<Definition>): Fragments {
    if definitions == [] then map[]
    else
      var before := FragmentMap(definitions[..|definitions| - 1]);
      var last := definitions[|definitions| - 1];
      if last.FragmentDefinition? then before[last.name := last.selections] else before
  }

  lemma {:induction false} LastDefinitionCounts(definitions: seq<Definition>, i: nat)
    requires i < |definitions| && definitions[i].FragmentDefinition?
    requires forall j :: i < j < |definitions| ==>
               definitions[j] != FragmentDefinition(definitions[i].name, definitions[j].selections)
    ensures definitions[i].name in FragmentMap(definitions)
    ensures FragmentMap(definitions)[definitions[i].name] == definitions[i].selections
    decreases |definitions|
  {
    if i < |definitions| - 1 {
      LastDefinitionCounts(definitions[..|definitions| - 1], i);
    }
  }

  class Collector {
    const frags: Fragments
    const matched: set<string>
    var found: seq<string>
    var visited: set<string>

    constructor (frags: Fragments, matched: set<string>)
      ensures this.frags == frags && this.matched == matched && found == [] && visited == {}
    {
      this.frags, this.matched, found, visited := frags, matched, [], {};
    }

    /** The body of the loop: one selection. */
    method WalkSelection(sels: seq<Selection>, i: nat)
      requires i < |sels|
      modifies this`found, this`visited
      ensures var r := WalkOne(frags, sels[i..], old(visited));
              found == old(found) + Keep(matched, r.found) && visited == r.visited
      decreases |frags.Keys - visited|, sels, 0
    {
      match sels[i]
      case Field(name, selections) =>
        KeepJoins(matched, [name], Walk(frags, selections, visited).found);
        if name in matched {
          found := found + [name];
        }
        WalkSelections(selections);
      case Inline(selections) =>
        WalkSelections(selections);
      case Spread(name) =>
        if name !in visited && name in frags {
          OneFewer(frags.Keys, visited, name);
          visited := visited + {name};
          WalkSelections(frags[name]);
        }
    }

    /** Appends what the walk finds, in order, and marks what it enters. */
    method WalkSelections(sels: seq<Selection>)
      modifies this`found, this`visited
      ensures var r := Walk(frags, sels, old(visited));
              found == old(found) + Keep(matched, r.found) && visited == r.visited
      decreases |frags.Keys - visited|, sels, 1
    {
      var i := 0;
      ghost var whole := Walk(frags, sels, visited);
      ghost var done: seq<string> := [];
      assert sels[0..] == sels;
      while i < |sels|
        invariant i <= |sels| && old(visited) <= visited
        invariant found == old(found) + Keep(matched, done)
        invariant whole == Walked(done + Walk(frags, sels[i..], visited).found, Walk(frags, sels[i..], visited).visited)
      {
        ghost var first := WalkOne(frags, sels[i..], visited);
        ghost var rest := Walk(frags, sels[i + 1..], first.visited);
        NoMore(frags.Keys, old(visited), visited);
        assert sels[i..][1..] == sels[i + 1..];
        assert Walk(frags, sels[i..], visited) == Walked(first.found + rest.found, rest.visited);
        WalkSelection(sels, i);
        JoinFound(done, first.found, rest.found);
        KeepJoins(matched, done, first.found);
        JoinFound(old(found), Keep(matched, done), Keep(matched, first.found));
        done := done + first.found;
        i := i + 1;
      }
      assert sels[i..] == [];
      assert done + [] == done;
    }
  }

  method BuildFragmentMap(definitions: seq<Definition>) returns (frags: Fragments)
    ensures frags == FragmentMap(definitions)
  {
    frags := map[];
    for i := 0 to |definitions|
      invariant frags == FragmentMap(definitions[..i])
    {
      assert definitions[..i + 1][..i] == definitions[..i];
      if definitions[i].FragmentDefinition? {
        frags := frags[definitions[i].name := definitions[i].selections];
      }
    }
    assert definitions[..|definitions|] == definitions;
  }

  /** How often a name stands in the operation's own tree and in the bodies of the fragments it reaches, each once. */
  ghost function Occurrences(frags: Fragments, operation: seq<Selection>, name: string): nat {
    multiset(Names(operation))[name]
    + BodyNames(frags, set f | f in frags && Reachable(frags, Spreads(operation), f))[name]
  }

  lemma WalkFindsOccurrences(frags: Fragments, operation: seq<Selection>, name: string)
    ensures multiset(Walk(frags, operation, {}).found)[name] == Occurrences(frags, operation, name)
  {
    FindsEachBodyOnce(frags, operation);
    var reached := set f | f in frags && Reachable(frags, Spreads(operation), f);
    forall f ensures f in Walk(frags, operation, {}).visited <==> f in reached {
      EntersExactlyTheReachable(frags, operation, f);
    }
    assert Walk(frags, operation, {}).visited == reached;
  }

  /** The matched names in reading order, each as often as it occurs. */
  method CollectMatchedFields(operation: seq<Selection>, document: seq<Definition>, matched: set<string>)
    returns (found: seq<string>)
    ensures found == Keep(matched, Read(FragmentMap(document), operation, {}))
    ensures forall name :: multiset(found)[name] ==
              if name in matched then Occurrences(FragmentMap(document), operation, name) else 0
  {
    var frags := BuildFragmentMap(document);
    var collector := new Collector(frags, matched);
    collector.WalkSelections(operation);
    found := collector.found;
    assert [] + Keep(matched, Walk(frags, operation, {}).found) == Keep(matched, Walk(frags, operation, {}).found);
    FindsInReadingOrder(frags, operation);
    forall name ensures multiset(found)[name] ==
      if name in matched then Occurrences(frags, operation, name) else 0
    {
      KeepCounts(matched, Walk(frags, operation, {}).found, name);
      WalkFindsOccurrences(frags, operation, name);
    }
  }

  /** The first name that has already been seen, if any is. */
  method FirstRepeated(names: seq<string>) returns (repeated: Option<string>)
    ensures repeated.None? <==> forall i, j :: 0 <= i < j < |names| ==> names[i] != names[j]
    ensures repeated.Some? ==> exists j ::
              && 0 <= j < |names| && names[j] == repeated.value && names[j] in names[..j]
              && forall i, k :: 0 <= i < k < j ==> names[i] != names[k]
  {
    var counts: map<string, nat> := map[];
    for n := 0 to |names|
      invariant forall x :: x in counts <==> x in names[..n]
      invariant forall x :: x in counts ==> counts[x] == 1
      invariant forall i, j :: 0 <= i < j < n ==> names[i] != names[j]
    {
      var next := (if names[n] in counts then counts[names[n]] else 0) + 1;
      if next > 1 {
        return Some(names[n]);
      }
      counts := counts[names[n] := next];
    }
    return None;
  }

  lemma {:induction false} RepeatsAreCounted(names: seq<string>, x: string)
    ensures multiset(names)[x] >= 2 <==> exists i, j :: 0 <= i < j < |names| && names[i] == x && names[j] == x
  {
    if names != [] {
      var rest := names[1..];
      RepeatsAreCounted(rest, x);
      assert names == [names[0]] + rest;
      assert multiset(rest)[x] >= 1 <==> x in rest;
      if multiset(names)[x] >= 2 {
        if names[0] == x {
          var j :| 0 <= j < |rest| && rest[j] == x;
          assert names[0] == x && names[j + 1] == x;
        } else {
          var i, j :| 0 <= i < j < |rest| && rest[i] == x && rest[j] == x;
          assert names[i + 1] == x && names[j + 1] == x;
        }
      }
      if i, j :| 0 <= i < j < |names| && names[i] == x && names[j] == x {
        assert rest[j - 1] == x;
        if i > 0 { assert rest[i - 1] == x; }
      }
    }
  }

  /** Refused exactly when a mutation selects some protected field twice or more, counting what its fragments select. */
  method DisableAliasing(protectedFields: set<string>, operation: Option<Definition>, document: seq<Definition>)
    returns (refused: Option<string>)
    ensures refused.Some? <==>
      && operation.Some? && operation.value.OperationDefinition? && operation.value.kind == "mutation"
      && exists name :: name in protectedFields
           && Occurrences(FragmentMap(document), operation.value.selections, name) >= 2
    ensures refused.Some? ==>
      && refused.value in protectedFields
      && Occurrences(FragmentMap(document), operation.value.selections, refused.value) >= 2
  {
    if protectedFields == {} {
      return None;
    }
    if operation.None? || !operation.value.OperationDefinition? || operation.value.kind != "mutation" {
      return None;
    }
    var found := CollectMatchedFields(operation.value.selections, document, protectedFields);
    hide Occurrences, FragmentMap, Read, Keep;
    refused := FirstRepeated(found);
    if refused.Some? {
      RepeatsAreCounted(found, refused.value);
      assert multiset(found)[refused.value] >= 2;
    } else {
      forall name | name in protectedFields
        ensures Occurrences(FragmentMap(document), operation.value.selections, name) < 2
      {
        RepeatsAreCounted(found, name);
      }
    }
  }
}
