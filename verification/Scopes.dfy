/** Scope lists: what /authorize lets a client ask for and what a refresh may narrow to. */
module Scopes {
  import opened Wrappers
  import opened Text

  const CATALOG: set<string> := {
    "profile:read", "profile:write", "account:delete",
    "users:read", "users:write", "users:delete",
    "permissions:read", "permissions:write", "admin:access"
  }

  datatype ScopeError =
    | NothingRegistered
    | NothingRequested
    | NotInCatalog(unknown: seq<string>)
    | BeyondRegistration(extra: seq<string>)

  ghost predicate NoDuplicates<T>(items: seq<T>) {
    forall i, j :: 0 <= i < j < |items| ==> items[i] != items[j]
  }

  /** The elements of a list. */
  function Elements(items: seq<string>): (elements: set<string>)
    ensures forall item :: item in elements <==> item in items
  {
    set item | item in items
  }

  /** `items.filter((s) => !allowed.has(s))`. */
  function Outside(items: seq<string>, allowed: set<string>): (extra: seq<string>)
    ensures forall item :: item in extra <==> item in items && item !in allowed
  {
    if items == [] then []
    else if items[0] in allowed then Outside(items[1..], allowed)
    else [items[0]] + Outside(items[1..], allowed)
  }

  /** `[...new Set(items)]`: each element once, at its first position. */
  function Dedupe(items: seq<string>): (once: seq<string>)
    ensures Elements(once) == Elements(items)
    ensures NoDuplicates(once)
  {
    if items == [] then []
    else
      var last := items[|items| - 1];
      var before := Dedupe(items[..|items| - 1]);
      assert forall item :: item in items <==> item in items[..|items| - 1] || item == last;
      if last in before then
        assert last in Elements(before);
        before
      else
        before + [last]
  }

  function OrEmpty(text: Option<string>): string {
    match text case None => "" case Some(value) => value
  }

  /** What a request asks for: its own list, else the registered one. */
  function Asked(requested: Option<string>, registered: Option<string>): seq<string> {
    Words(if requested.Some? then requested.value else OrEmpty(registered))
  }

  /** What a client registered may reach at all. */
  function Ceiling(registered: Option<string>): set<string> {
    Elements(Words(OrEmpty(registered))) * CATALOG
  }

  function ResolveRequestedScopes(requested: Option<string>, registered: Option<string>)
    : Result<seq<string>, ScopeError>
  {
    var registeredScopes := Elements(Words(OrEmpty(registered)));
    if registeredScopes == {} then Err(NothingRegistered)
    else
      var raw := Asked(requested, registered);
      if raw == [] then Err(NothingRequested)
      else
        var unknown := Outside(raw, CATALOG);
        if unknown != [] then Err(NotInCatalog(unknown))
        else
          var extra := Outside(raw, registeredScopes);
          if extra != [] then Err(BeyondRegistration(extra))
          else Ok(Dedupe(raw))
  }

  /**
   * A resolved request is exactly a non-empty one that fits under the client's ceiling; what comes out is
   * what was asked for, each scope once.
   */
  lemma ResolvedExactlyUnderCeiling(requested: Option<string>, registered: Option<string>)
    ensures var asked := Elements(Asked(requested, registered));
            var resolved := ResolveRequestedScopes(requested, registered);
            && (resolved.Ok? <==> asked != {} && asked <= Ceiling(registered))
            && (resolved.Ok? ==> Elements(resolved.value) == asked && NoDuplicates(resolved.value))
  {
    var raw := Asked(requested, registered);
    var registeredScopes := Elements(Words(OrEmpty(registered)));
    if raw != [] {
      assert raw[0] in Elements(raw);
    }
    if Outside(raw, CATALOG) != [] {
      var bad := Outside(raw, CATALOG)[0];
      assert bad in Elements(raw) && bad !in Ceiling(registered);
    } else if Outside(raw, registeredScopes) != [] {
      var bad := Outside(raw, registeredScopes)[0];
      assert bad in Elements(raw) && bad !in Ceiling(registered);
    } else {
      forall scope | scope in Elements(raw) ensures scope in Ceiling(registered) {
        assert scope !in Outside(raw, CATALOG) && scope !in Outside(raw, registeredScopes);
      }
    }
  }

  lemma NoWords()
    ensures Words("") == []
  {
    assert Split("", ' ') == [""];
    assert DropEmpty([""]) == DropEmpty([""][1..]);
  }

  /**
   * A list the request gives is the one that counts: it resolves exactly if it names some scope and each lies in what
   * the client registered and in the catalog, and what comes out is that list, each scope once.
   */
  lemma RequestedResolvesExactly(requested: string, registered: Option<string>)
    ensures var asked := Elements(Words(requested));
            var resolved := ResolveRequestedScopes(Some(requested), registered);
            && (resolved.Ok? <==>
                  && Words(requested) != [] && registered.Some?
                  && asked <= Elements(Words(registered.value)) && asked <= CATALOG)
            && (resolved.Ok? ==> Elements(resolved.value) == asked && NoDuplicates(resolved.value))
  {
    ResolvedExactlyUnderCeiling(Some(requested), registered);
    NoWords();
    if Words(requested) != [] { assert Words(requested)[0] in Elements(Words(requested)); }
    hide Words, ResolveRequestedScopes;
  }

  /** Without a list of its own a request is for all the client registered, if that is something and in the catalog. */
  lemma RegisteredResolvesExactly(registered: Option<string>)
    ensures var resolved := ResolveRequestedScopes(None, registered);
            && (resolved.Ok? <==>
                  registered.Some? && Words(registered.value) != [] && Elements(Words(registered.value)) <= CATALOG)
            && (resolved.Ok? ==>
                  Elements(resolved.value) == Elements(Words(registered.value)) && NoDuplicates(resolved.value))
  {
    ResolvedExactlyUnderCeiling(None, registered);
    NoWords();
    if registered.Some? && Words(registered.value) != [] {
      assert Words(registered.value)[0] in Elements(Words(registered.value));
    }
    hide Words, ResolveRequestedScopes;
  }

  /**
   * Why a list is refused, in this order: the client registered nothing, the list names nothing, some of it is not in
   * the catalog, some of it is not registered; the last two name exactly those scopes.
   */
  lemma RefusalNamesTheReason(requested: string, registered: string)
    ensures var asked := Elements(Words(requested));
            var allowed := Elements(Words(registered));
            var resolved := ResolveRequestedScopes(Some(requested), Some(registered));
            && (resolved == Err(NothingRegistered) <==> Words(registered) == [])
            && (resolved == Err(NothingRequested) <==> Words(registered) != [] && Words(requested) == [])
            && (resolved.Err? && resolved.error.NotInCatalog? <==> Words(registered) != [] && !(asked <= CATALOG))
            && (resolved.Err? && resolved.error.NotInCatalog? ==> Elements(resolved.error.unknown) == asked - CATALOG)
            && (resolved.Err? && resolved.error.BeyondRegistration? <==>
                  Words(registered) != [] && asked <= CATALOG && !(asked <= allowed))
            && (resolved.Err? && resolved.error.BeyondRegistration? ==> Elements(resolved.error.extra) == asked - allowed)
  {
    var raw := Words(requested);
    if Words(registered) != [] { assert Words(registered)[0] in Elements(Words(registered)); }
    OutsideIsEmptyExactly(raw, CATALOG);
    OutsideIsEmptyExactly(raw, Elements(Words(registered)));
    hide Words, Outside;
  }

  lemma OutsideIsEmptyExactly(items: seq<string>, allowed: set<string>)
    ensures Outside(items, allowed) == [] <==> Elements(items) <= allowed
    ensures Elements(Outside(items, allowed)) == Elements(items) - allowed
  {
    if Outside(items, allowed) != [] {
      assert Outside(items, allowed)[0] in Elements(items) && Outside(items, allowed)[0] !in allowed;
    } else {
      forall item | item in Elements(items) ensures item in allowed {
        assert item !in Outside(items, allowed);
      }
    }
  }

  /** A scope nobody declared is reported as unknown, not as out of bounds; whether asked for or only registered. */
  lemma UnknownReportedFirst(requested: string, registered: string, scope: string)
    requires Words(registered) != [] && scope !in CATALOG
    ensures scope in Words(requested) ==>
              var resolved := ResolveRequestedScopes(Some(requested), Some(registered));
              resolved.Err? && resolved.error.NotInCatalog? && scope in resolved.error.unknown
    ensures scope in Words(registered) ==>
              var resolved := ResolveRequestedScopes(None, Some(registered));
              resolved.Err? && resolved.error.NotInCatalog? && scope in resolved.error.unknown
  {
    assert Words(registered)[0] in Elements(Words(registered));
    assert scope in Words(requested) ==> scope in Outside(Words(requested), CATALOG);
    assert scope in Words(registered) ==> scope in Outside(Words(registered), CATALOG);
  }

  /** `narrowScopes`: the granted list when nothing was asked for, else the asked list if it is covered. */
  function NarrowScopes(requested: Option<string>, granted: set<string>): Result<set<string>, seq<string>> {
    if requested.None? then Ok(granted)
    else
      var asked := Words(requested.value);
      var extra := Outside(asked, granted);
      if extra != [] then Err(extra) else Ok(Elements(asked))
  }

  /** A refresh never widens, and refuses exactly the requests that would. */
  lemma NarrowNeverWidens(requested: Option<string>, granted: set<string>)
    ensures var narrowed := NarrowScopes(requested, granted);
            && (narrowed.Ok? <==> requested.None? || Elements(Words(requested.value)) <= granted)
            && (narrowed.Ok? ==> narrowed.value <= granted)
            && (narrowed.Ok? && requested.Some? ==> narrowed.value == Elements(Words(requested.value)))
            && (narrowed.Err? ==> Elements(narrowed.error) == Elements(Words(requested.value)) - granted)
  {
    if requested.Some? {
      var asked := Words(requested.value);
      var extra := Outside(asked, granted);
      if extra != [] {
        assert extra[0] in Elements(asked) && extra[0] !in granted;
      } else {
        forall scope | scope in Elements(asked) ensures scope in granted {
          assert scope !in extra;
        }
      }
    }
  }

  /** What is narrowed to nothing at all: exactly a request that names no scope, spaces or not. */
  lemma NarrowedToNothingExactly(requested: Option<string>, granted: set<string>)
    requires granted != {}
    ensures NarrowScopes(requested, granted) == Ok({}) <==> requested.Some? && Words(requested.value) == []
  {
    if requested.Some? {
      var asked := Words(requested.value);
      if asked != [] {
        assert asked[0] in Elements(asked);
      } else {
        assert Elements(asked) == {};
      }
    }
  }
}
