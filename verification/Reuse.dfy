/**
  Cross-frame reuse: hand back a still valid signature when only the
  timestamps of the statement moved.
 */
module Reuse {
  import opened Wire
  import opened Contexts

  /** One entry per schema, symbol, direction and order tokens. */
  datatype Key = Key(schema: Schema, symbol: Symbol, direction: Direction, input: Address, output: Address)

  datatype Stored = Stored(expiry: U64, response: OracleResponse, generation: nat)

  /** The same signed statement up to publish time and expiry. */
  predicate SameStatement(a: seq<Word>, b: seq<Word>) {
    && |a| == |b|
    && forall i :: 0 <= i < |a| ==> i == PUBLISH_TIME_SLOT || i == EXPIRY_SLOT || a[i] == b[i]
  }

  function SaturatingAdd(a: U64, b: U64): U64 {
    if a + b <= U64_MAX then a + b else U64_MAX
  }

  /** The entry under `key`, cloned under the map lock. A zero margin disables reuse. */
  function Fetch(entries: map<Key, Stored>, margin: U64, key: Key): Option<Stored> {
    if margin > 0 && key in entries then Some(entries[key]) else None
  }

  /** The checks made on the clone, after the lock is released; `live` is the stored generation's flag. */
  predicate Accepts(margin: U64, stored: Stored, live: bool, wanted: Statement, nowSecs: U64, generation: nat) {
    && stored.generation == generation
    && live
    && SameStatement(stored.response.context, wanted.context)
    && stored.expiry <= wanted.expiry
    && stored.expiry >= SaturatingAdd(nowSecs, margin)
  }

  /** `store` under the generation's gate: nothing is written once it is revoked. */
  function Save(entries: map<Key, Stored>, margin: U64, key: Key, stored: Stored, live: bool): map<Key, Stored> {
    if margin > 0 && live then entries[key := stored] else entries
  }

  /**
    What an accepted entry says: it is of the asking request's generation and
    statement, dies no later than the asking frame, and has the margin left
    (the saturating sum can only lie for an expiry at the top of the range).
   */
  lemma AcceptedEntryIsUsable(margin: U64, stored: Stored, live: bool, wanted: Statement, nowSecs: U64, generation: nat)
    requires Accepts(margin, stored, live, wanted, nowSecs, generation)
    ensures stored.generation == generation && live && stored.expiry <= wanted.expiry
    ensures nowSecs + margin <= stored.expiry <==> stored.expiry < U64_MAX || nowSecs + margin <= U64_MAX
    ensures |wanted.context| > 8 ==>
              stored.response.context
              == wanted.context[2 := stored.response.context[2]][8 := stored.response.context[8]]
  {
  }

  /**
    Store then lookup. What was stored under a live generation comes back to a
    request of that generation whose statement moved only in its timestamps, as
    long as the margin is left; other keys are untouched, and a store that is
    disabled or revoked changes nothing.
   */
  lemma StoreThenLookup(entries: map<Key, Stored>, margin: U64, key: Key, stored: Stored, live: bool, other: Key)
    ensures var after := Save(entries, margin, key, stored, live);
            && (margin > 0 && live ==> Fetch(after, margin, key) == Some(stored))
            && (margin == 0 || !live ==> after == entries)
            && (other != key ==> Fetch(after, margin, other) == Fetch(entries, margin, other))
    ensures forall wanted: Statement, nowSecs: U64 ::
              && SameStatement(stored.response.context, wanted.context)
              && nowSecs + margin <= stored.expiry <= wanted.expiry && live
              ==> Accepts(margin, stored, live, wanted, nowSecs, stored.generation)
  {
  }

  class ReuseCache {
    var entries: map<Key, Stored>
    const margin: U64

    constructor (margin: U64)
      ensures entries == map[] && this.margin == margin
    {
      this.entries, this.margin := map[], margin;
    }

    method Lookup(key: Key, wanted: Statement, nowSecs: U64, generation: nat, live: set<nat>)
      returns (found: Option<Stored>)
      ensures found.Some? <==>
                var stored := Fetch(entries, margin, key);
                stored.Some? && Accepts(margin, stored.value, stored.value.generation in live, wanted, nowSecs, generation)
      ensures found.Some? ==> key in entries && found.value == entries[key]
    {
      if margin == 0 || key !in entries {
        return None;
      }
      var stored := entries[key];
      if stored.generation != generation || stored.generation !in live {
        return None;
      }
      var same := CompareStatements(stored.response.context, wanted.context);
      if !same {
        return None;
      }
      if stored.expiry > wanted.expiry {
        return None;
      }
      if stored.expiry < SaturatingAdd(nowSecs, margin) {
        return None;
      }
      return Some(stored);
    }

    method Store(key: Key, expiry: U64, response: OracleResponse, generation: nat, live: set<nat>) returns (ok: bool)
      modifies this
      ensures entries == Save(old(entries), margin, key, Stored(expiry, response, generation), generation in live)
      ensures ok <==> margin > 0 && generation in live
    {
      ok := margin > 0 && generation in live;
      if ok {
        entries := entries[key := Stored(expiry, response, generation)];
      }
    }
  }

  /** `same_statement`: zip the two contexts and compare every slot but the two timestamps. */
  method CompareStatements(a: seq<Word>, b: seq<Word>) returns (same: bool)
    ensures same <==> |a| == |b| && forall i :: 0 <= i < |a| && i != 2 && i != 8 ==> a[i] == b[i]
    ensures same <==> SameStatement(a, b)
  {
    if |a| != |b| {
      return false;
    }
    for i := 0 to |a|
      invariant forall j :: 0 <= j < i ==> j == PUBLISH_TIME_SLOT || j == EXPIRY_SLOT || a[j] == b[j]
    {
      if i != PUBLISH_TIME_SLOT && i != EXPIRY_SLOT && a[i] != b[i] {
        return false;
      }
    }
    return true;
  }
}
