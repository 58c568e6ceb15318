/**
 The offline cache (frontend/hooks/useOfflineCache.ts): pruning, version check and hydration over
 localStorage, seen as an indexed list of items with distinct keys. JSON is a trusted codec, `parse`.
 */
module OfflineCache {
  import opened Wrappers

  const CACHE_KEY_PREFIX := "sv_cache_"
  const CACHE_VERSION_KEY := "sv_cache_version"
  const PROTECTED_KEY_PREFIX := "sv_auth_session"

  /** What a text parses to: nothing, a falsy value, or a value with a date and data; `None` is an invalid or missing date. */
  datatype Parsed = NotJson | Falsy | Value(savedAt: Option<int>, data: int)

  type Codec = string -> Parsed

  datatype Item = Item(key: string, text: string)

  datatype Hydration = Hydration(queryKey: string, data: int)

  predicate DistinctKeys(items: seq<Item>) { forall i, j :: 0 <= i < j < |items| ==> items[i].key != items[j].key }

  /** Keys the cache may touch. */
  predicate Ours(key: string) { CACHE_KEY_PREFIX <= key && !(PROTECTED_KEY_PREFIX <= key) }

  function ReadEntry(text: string, parse: Codec): Option<Parsed> {
    if text == "" || !parse(text).Value? then None else Some(parse(text))
  }

  /** Unreadable, or dated before the cutoff; an entry without a valid date compares as not older. */
  predicate Stale(text: string, cutoff: int, parse: Codec) {
    var entry := ReadEntry(text, parse);
    entry.None? || (entry.value.savedAt.Some? && entry.value.savedAt.value < cutoff)
  }

  predicate Prunable(item: Item, cutoff: int, parse: Codec) { Ours(item.key) && Stale(item.text, cutoff, parse) }

  // --- Storage --------------------------------------------------------------------------------

  function GetItem(items: seq<Item>, key: string): Option<string> {
    if items == [] then None
    else if items[0].key == key then Some(items[0].text)
    else GetItem(items[1..], key)
  }

  function SetItem(items: seq<Item>, key: string, text: string): seq<Item> {
    if items == [] then [Item(key, text)]
    else if items[0].key == key then [Item(key, text)] + items[1..]
    else [items[0]] + SetItem(items[1..], key, text)
  }

  /** The items whose keys are not in the set, in their order. */
  function Without(items: seq<Item>, keys: set<string>): seq<Item> {
    if items == [] then []
    else
      var last := items[|items| - 1];
      Without(items[..|items| - 1], keys) + if last.key in keys then [] else [last]
  }

  lemma {:induction false} WithoutMembers(items: seq<Item>, keys: set<string>)
    ensures forall x :: x in Without(items, keys) <==> x in items && x.key !in keys
    ensures DistinctKeys(items) ==> DistinctKeys(Without(items, keys))
  {
    if items != [] {
      var init, last := items[..|items| - 1], items[|items| - 1];
      WithoutMembers(init, keys);
      assert items == init + [last];
      var kept := Without(init, keys);
      forall i | 0 <= i < |kept| ensures DistinctKeys(items) ==> kept[i].key != last.key {
        assert kept[i] in init;
      }
    }
  }

  lemma {:induction false} WithoutOneMore(items: seq<Item>, keys: set<string>, key: string)
    ensures Without(Without(items, keys), {key}) == Without(items, keys + {key})
  {
    if items != [] {
      var init, last := items[..|items| - 1], items[|items| - 1];
      WithoutOneMore(init, keys, key);
      var kept := Without(init, keys);
      if last.key !in keys {
        assert (kept + [last])[..|kept|] == kept;
      } else {
        assert kept + [] == kept;
      }
    }
  }

  lemma {:induction false} WithoutNothing(items: seq<Item>)
    ensures Without(items, {}) == items
  {
    if items != [] { WithoutNothing(items[..|items| - 1]); }
  }

  // --- The loops ------------------------------------------------------------------------------

  function PrunedKeys(items: seq<Item>, cutoff: int, parse: Codec): set<string> {
    set x | x in items && Prunable(x, cutoff, parse) :: x.key
  }

  function OurKeys(items: seq<Item>): set<string> { set x | x in items && Ours(x.key) :: x.key }

  function Loads(items: seq<Item>, cutoff: int, parse: Codec): seq<Hydration> {
    if items == [] then []
    else
      var last := items[|items| - 1];
      Loads(items[..|items| - 1], cutoff, parse) + LoadOf(last, cutoff, parse)
  }

  /** An item is loaded if its entry is current and the rest of its key is JSON. */
  function LoadOf(item: Item, cutoff: int, parse: Codec): seq<Hydration> {
    if !Ours(item.key) || Stale(item.text, cutoff, parse) then []
    else
      var queryKey := item.key[|CACHE_KEY_PREFIX|..];
      if parse(queryKey).NotJson? then [] else [Hydration(queryKey, parse(item.text).data)]
  }

  /** The cached version when the app mounts: a text, or (as the code has it) a promise, since `getCacheVersion` is async. */
  datatype CurrentVersion = VersionText(text: string) | VersionPromise

  function AsText(v: CurrentVersion): string { if v.VersionText? then v.text else "[object Promise]" }

  function SyncVersion(items: seq<Item>, v: CurrentVersion): (seq<Item>, bool) {
    if v.VersionText? && GetItem(items, CACHE_VERSION_KEY) == Some(v.text) then (items, false)
    else (SetItem(Without(items, OurKeys(items)), CACHE_VERSION_KEY, AsText(v)), true)
  }

  /** The mount effect, taken to happen at one instant. */
  function Mount(items: seq<Item>, v: CurrentVersion, cutoff: int, parse: Codec): (seq<Item>, seq<Hydration>) {
    var synced := SyncVersion(items, v).0;
    var pruned := Without(synced, PrunedKeys(synced, cutoff, parse));
    (pruned, Loads(pruned, cutoff, parse))
  }

  function Keys(keys: seq<string>): set<string> { set k | k in keys }

  lemma KeysSnoc(keys: seq<string>, i: nat)
    requires i < |keys|
    ensures Keys(keys[..i + 1]) == Keys(keys[..i]) + {keys[i]}
  {
  }

  class LocalStorage {
    var items: seq<Item>

    constructor (items: seq<Item>)
      ensures this.items == items
    {
      this.items := items;
    }

    /** Removes the keys one by one. */
    method RemoveAll(keys: seq<string>)
      modifies this
      ensures items == Without(old(items), Keys(keys))
    {
      WithoutNothing(items);
      assert Keys(keys[..0]) == {};
      for i := 0 to |keys|
        invariant items == Without(old(items), Keys(keys[..i]))
      {
        WithoutOneMore(old(items), Keys(keys[..i]), keys[i]);
        KeysSnoc(keys, i);
        items := Without(items, {keys[i]});
      }
      assert keys[..|keys|] == keys;
    }

    method PruneStaleEntries(maxAgeMs: int, now: int, parse: Codec)
      modifies this
      ensures items == Without(old(items), PrunedKeys(old(items), now - maxAgeMs, parse))
    {
      var cutoff := now - maxAgeMs;
      var keysToRemove: seq<string> := [];
      for i := 0 to |items|
        invariant items == old(items)
        invariant forall k :: k in keysToRemove <==> exists j :: 0 <= j < i && items[j].key == k && Prunable(items[j], cutoff, parse)
      {
        var key := items[i].key;
        if Ours(key) && Stale(items[i].text, cutoff, parse) {
          keysToRemove := keysToRemove + [key];
        }
      }
      assert Keys(keysToRemove) == PrunedKeys(items, cutoff, parse);
      RemoveAll(keysToRemove);
    }

    method ClearPersistedEntries()
      modifies this
      ensures items == Without(old(items), OurKeys(old(items)))
    {
      var keysToRemove: seq<string> := [];
      for i := 0 to |items|
        invariant items == old(items)
        invariant forall k :: k in keysToRemove <==> exists j :: 0 <= j < i && items[j].key == k && Ours(items[j].key)
      {
        if Ours(items[i].key) {
          keysToRemove := keysToRemove + [items[i].key];
        }
      }
      assert Keys(keysToRemove) == OurKeys(items);
      RemoveAll(keysToRemove);
    }

    method SyncCacheVersion(v: CurrentVersion) returns (invalidated: bool)
      modifies this
      ensures (items, invalidated) == SyncVersion(old(items), v)
    {
      var stored := GetItem(items, CACHE_VERSION_KEY);
      if v.VersionText? && stored == Some(v.text) {
        return false;
      }
      ClearPersistedEntries();
      items := SetItem(items, CACHE_VERSION_KEY, AsText(v));
      invalidated := true;
    }

    method Hydrate(cutoff: int, parse: Codec) returns (loaded: seq<Hydration>)
      ensures loaded == Loads(items, cutoff, parse)
    {
      loaded := [];
      for i := 0 to |items|
        invariant loaded == Loads(items[..i], cutoff, parse)
      {
        assert items[..i + 1][..i] == items[..i];
        var key := items[i].key;
        if Ours(key) && !Stale(items[i].text, cutoff, parse) {
          var queryKey := key[|CACHE_KEY_PREFIX|..];
          if !parse(queryKey).NotJson? {
            loaded := loaded + [Hydration(queryKey, parse(items[i].text).data)];
          }
        }
      }
      assert items[..|items|] == items;
    }
  }

  // --- What they guarantee --------------------------------------------------------------------

  /**
   Pruning removes exactly the prefixed, unprotected items that are unreadable or older than the
   cutoff; every other item stays, with its text and in its place in the order.
   */
  lemma PruneIsExact(items: seq<Item>, cutoff: int, parse: Codec)
    requires DistinctKeys(items)
    ensures var after := Without(items, PrunedKeys(items, cutoff, parse));
            && DistinctKeys(after)
            && forall x :: x in after <==> x in items && !Prunable(x, cutoff, parse)
  {
    var keys := PrunedKeys(items, cutoff, parse);
    WithoutMembers(items, keys);
    forall x | x in items ensures x.key in keys <==> Prunable(x, cutoff, parse) {
      if x.key in keys {
        var y :| y in items && Prunable(y, cutoff, parse) && y.key == x.key;
        var i :| 0 <= i < |items| && items[i] == x;
        var j :| 0 <= j < |items| && items[j] == y;
      }
    }
  }

  /** What remains stands in the order it had. */
  lemma {:induction false} OrderIsKept(items: seq<Item>, keys: set<string>, i: nat, j: nat) returns (p: nat, q: nat)
    requires i < j < |Without(items, keys)|
    ensures p < q < |items| && items[p] == Without(items, keys)[i] && items[q] == Without(items, keys)[j]
  {
    var init := items[..|items| - 1];
    var kept := Without(init, keys);
    if j < |kept| {
      p, q := OrderIsKept(init, keys, i, j);
    } else {
      WithoutMembers(init, keys);
      assert kept[i] in init;
      p :| 0 <= p < |init| && init[p] == kept[i];
      q := |items| - 1;
    }
  }

  lemma PrefixesDiffer(key: string)
    ensures !("sv_cache_" <= key && "sv_auth_session" <= key)
  {
    assert "sv_cache_"[3] != "sv_auth_session"[3];
  }

  /** Pruning keeps everything without the cache's prefix, and of the rest what holds an entry that is not older than the maximal age or has no date. */
  lemma WhichItemsStay(items: seq<Item>, maxAgeMs: int, now: int, parse: Codec, x: Item)
    requires DistinctKeys(items) && x in items
    ensures x in Without(items, PrunedKeys(items, now - maxAgeMs, parse)) <==>
            || !("sv_cache_" <= x.key)
            || (x.text != "" && parse(x.text).Value? && (parse(x.text).savedAt.Some? ==> now - parse(x.text).savedAt.value <= maxAgeMs))
  {
    PruneIsExact(items, now - maxAgeMs, parse);
    PrefixesDiffer(x.key);
  }

  /**
   The version check changes nothing if the marker holds exactly the current version; otherwise
   everything with the cache's prefix goes, nothing else does, and the marker is set.
   */
  lemma WhatTheVersionCheckDoes(items: seq<Item>, v: CurrentVersion)
    requires DistinctKeys(items)
    ensures var (after, invalidated) := SyncVersion(items, v);
            && (invalidated <==> v == VersionPromise || Item("sv_cache_version", v.text) !in items)
            && (!invalidated ==> after == items)
            && (invalidated ==> forall x :: x in after <==> x == Item("sv_cache_version", AsText(v)) || (x in items && !("sv_cache_" <= x.key)))
  {
    GetItemMembers(items, CACHE_VERSION_KEY);
    var cleared := Without(items, OurKeys(items));
    WithoutMembers(items, OurKeys(items));
    SetItemMembers(cleared, CACHE_VERSION_KEY, AsText(v));
    VersionKeyIsOurs();
    forall x: Item ensures Ours(x.key) <==> "sv_cache_" <= x.key { PrefixesDiffer(x.key); }
  }

  /** Protected items, such as the saved auth session, survive every operation. */
  lemma ProtectedItemsSurvive(items: seq<Item>, v: CurrentVersion, cutoff: int, parse: Codec, x: Item)
    requires x in items && !Ours(x.key)
    ensures x in Mount(items, v, cutoff, parse).0
  {
    var cleared := Without(items, OurKeys(items));
    WithoutMembers(items, OurKeys(items));
    SetItemMembers(cleared, CACHE_VERSION_KEY, AsText(v));
    assert Ours(CACHE_VERSION_KEY) by { VersionKeyIsOurs(); }
    var synced := SyncVersion(items, v).0;
    WithoutMembers(synced, PrunedKeys(synced, cutoff, parse));
  }

  lemma VersionKeyIsOurs()
    ensures Ours(CACHE_VERSION_KEY)
  {
    assert CACHE_VERSION_KEY[..9] == CACHE_KEY_PREFIX;
    assert PROTECTED_KEY_PREFIX[3] == 'a' && CACHE_VERSION_KEY[3] == 'c';
  }

  lemma {:induction false} SetItemMembers(items: seq<Item>, key: string, text: string)
    ensures Item(key, text) in SetItem(items, key, text)
    ensures forall x: Item :: x.key != key ==> (x in SetItem(items, key, text) <==> x in items)
    ensures GetItem(SetItem(items, key, text), key) == Some(text)
    ensures DistinctKeys(items) ==> DistinctKeys(SetItem(items, key, text)) && forall x :: x in SetItem(items, key, text) && x.key == key ==> x.text == text
  {
    if items != [] {
      assert items == [items[0]] + items[1..];
      if items[0].key != key {
        SetItemMembers(items[1..], key, text);
        var rest := SetItem(items[1..], key, text);
        assert SetItem(items, key, text) == [items[0]] + rest;
        if DistinctKeys(items) {
          forall j | 0 <= j < |rest| ensures rest[j].key != items[0].key {
            assert rest[j] in rest;
            if rest[j].key != key { assert rest[j] in items[1..]; }
          }
        }
      } else if DistinctKeys(items) {
        forall x | x in items[1..] ensures x.key != key {}
      }
    }
  }

  /** Right after pruning, hydration loads exactly the remaining cache items whose key holds JSON; the version marker's does not. */
  lemma {:induction false} LoadsAreSurvivors(items: seq<Item>, cutoff: int, parse: Codec)
    requires forall x :: x in items ==> !Prunable(x, cutoff, parse)
    ensures forall h :: h in Loads(items, cutoff, parse) <==>
              exists x :: x in items && Ours(x.key) && parse(x.text).Value? && h == Hydration(x.key[|CACHE_KEY_PREFIX|..], parse(x.text).data) && !parse(h.queryKey).NotJson?
    decreases |items|
  {
    if items != [] {
      var init, last := items[..|items| - 1], items[|items| - 1];
      assert items == init + [last];
      LoadsAreSurvivors(init, cutoff, parse);
      forall h ensures h in Loads(items, cutoff, parse) <==>
          exists x :: x in items && Ours(x.key) && parse(x.text).Value? && h == Hydration(x.key[|CACHE_KEY_PREFIX|..], parse(x.text).data) && !parse(h.queryKey).NotJson? {
        assert h in Loads(items, cutoff, parse) <==> h in Loads(init, cutoff, parse) || h in LoadOf(last, cutoff, parse);
      }
    }
  }

  // --- The version marker ---------------------------------------------------------------------

  /** The items of a mount: outside the cache as before, inside it only what the version check left and pruning spared. */
  lemma MountMembers(items: seq<Item>, v: CurrentVersion, cutoff: int, parse: Codec)
    requires DistinctKeys(items)
    ensures var synced := SyncVersion(items, v).0;
            DistinctKeys(synced) && DistinctKeys(Mount(items, v, cutoff, parse).0) &&
            forall x :: x in Mount(items, v, cutoff, parse).0 <==> x in synced && !Prunable(x, cutoff, parse)
    ensures SyncVersion(items, v).1 ==>
              forall x :: x in SyncVersion(items, v).0 && Ours(x.key) ==> x == Item(CACHE_VERSION_KEY, AsText(v))
  {
    var cleared := Without(items, OurKeys(items));
    WithoutMembers(items, OurKeys(items));
    SetItemMembers(cleared, CACHE_VERSION_KEY, AsText(v));
    PruneIsExact(SyncVersion(items, v).0, cutoff, parse);
  }

  lemma {:induction false} NothingToLoad(items: seq<Item>, cutoff: int, parse: Codec)
    requires forall x :: x in items ==> !Ours(x.key)
    ensures Loads(items, cutoff, parse) == []
  {
    if items != [] { NothingToLoad(items[..|items| - 1], cutoff, parse); }
  }

  /**
   As the code stands the current version is a promise, which never equals the stored text: every
   mount clears the whole cache, the marker it leaves is pruned at once, and nothing is ever loaded.
   */
  lemma EveryMountClearsTheCache(items: seq<Item>, cutoff: int, parse: Codec)
    requires DistinctKeys(items) && parse(AsText(VersionPromise)).NotJson?
    ensures var (after, loaded) := Mount(items, VersionPromise, cutoff, parse);
            loaded == [] && (forall x :: x in after ==> !Ours(x.key)) && (forall x :: x in items && !Ours(x.key) ==> x in after)
  {
    var (after, loaded) := Mount(items, VersionPromise, cutoff, parse);
    MountMembers(items, VersionPromise, cutoff, parse);
    forall x | x in items && !Ours(x.key) ensures x in after { ProtectedItemsSurvive(items, VersionPromise, cutoff, parse, x); }
    NothingToLoad(after, cutoff, parse);
  }

  lemma {:induction false} GetItemMembers(items: seq<Item>, key: string)
    requires DistinctKeys(items)
    ensures forall text :: GetItem(items, key) == Some(text) <==> Item(key, text) in items
  {
    if items != [] {
      GetItemMembers(items[1..], key);
      assert items == [items[0]] + items[1..];
      forall x | x in items[1..] ensures x.key != items[0].key {}
    }
  }

  /**
   With a version text as intended, the marker shares the cache's prefix and is pruned like an entry.
   So the next mount with the same version keeps the cache exactly when the version text itself
   parses as a JSON value without an old date; a version such as "v3" never does.
   */
  lemma WhenTheMarkerSurvives(items: seq<Item>, version: string, cutoff: int, parse: Codec)
    requires DistinctKeys(items)
    ensures SyncVersion(Mount(items, VersionText(version), cutoff, parse).0, VersionText(version)).1 <==> Stale(version, cutoff, parse)
  {
    var v := VersionText(version);
    var synced := SyncVersion(items, v).0;
    var after := Mount(items, v, cutoff, parse).0;
    MountMembers(items, v, cutoff, parse);
    VersionKeyIsOurs();
    GetItemMembers(items, CACHE_VERSION_KEY);
    GetItemMembers(after, CACHE_VERSION_KEY);
    SetItemMembers(Without(items, OurKeys(items)), CACHE_VERSION_KEY, version);
    assert Item(CACHE_VERSION_KEY, version) in synced;
  }
}
