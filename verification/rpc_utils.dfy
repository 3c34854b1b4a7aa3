/**
 * The two process-wide stores of the RPC operators: `RpcVocabulary`, an
 * id-to-word table loaded from a vocabulary file, and `RpcRequestStore`,
 * which hands out request ids from a wrapping 32-bit counter and keeps the
 * completion event, error code and response of every request. Both are
 * modelled sequentially (the store's mutex is not modelled).
 */
module RpcUtils {
  import opened Common

  /** C++ `int` on the platforms Paddle builds for. */
  newtype int32 = x: int | -0x8000_0000 <= x < 0x8000_0000

  const INT32_MAX: int32 := 0x7fff_ffff

  // ---------------------------------------------------------------------
  // unordered_map operations

  /** `m.emplace(k, v)`: inserts only when the key is absent. */
  function Emplace<K, V>(m: map<K, V>, k: K, v: V): (r: map<K, V>)
    ensures k in r && r[k] == (if k in m then m[k] else v)
    ensures r.Keys == m.Keys + {k}
    ensures forall j :: j in m && j != k ==> r[j] == m[j]
  {
    if k in m then m else m[k := v]
  }

  /** The map after `m[k]` was read: a missing key is inserted with the
      value type's default. */
  function AfterRead<K, V>(m: map<K, V>, k: K, default: V): (r: map<K, V>)
    ensures r.Keys == m.Keys + {k}
    ensures forall j :: j in m ==> r[j] == m[j]
    ensures k !in m ==> r[k] == default
  {
    if k in m then m else m[k := default]
  }

  /** A second emplace of the same key changes nothing: the first value wins. */
  lemma EmplaceFirstWins<K, V>(m: map<K, V>, k: K, v1: V, v2: V)
    ensures Emplace(Emplace(m, k, v1), k, v2) == Emplace(m, k, v1)
  {
  }

  // ---------------------------------------------------------------------
  // RpcVocabulary

  /** The table after `vocab_.emplace(id, word)` for every pair in order. */
  function EmplaceAll(m: map<int32, string>, pairs: seq<(string, int32)>): (r: map<int32, string>)
  {
    if pairs == [] then m
    else
      var n := |pairs| - 1;
      Emplace(EmplaceAll(m, pairs[..n]), pairs[n].1, pairs[n].0)
  }

  /** Loading gives a word exactly to the ids already present and the ids
      of the pairs. */
  lemma {:induction false} EmplaceAllKeys(m: map<int32, string>, pairs: seq<(string, int32)>, id: int32)
    ensures id in EmplaceAll(m, pairs) <==> id in m || exists i :: 0 <= i < |pairs| && pairs[i].1 == id
  {
    if pairs != [] {
      var n := |pairs| - 1;
      EmplaceAllKeys(m, pairs[..n], id);
      if exists i :: 0 <= i < |pairs| && pairs[i].1 == id {
        var i :| 0 <= i < |pairs| && pairs[i].1 == id;
        if i < n {
          assert pairs[..n][i] == pairs[i];
        }
      }
    }
  }

  /** An id already present keeps its word. */
  lemma {:induction false} EmplaceAllKeepsOld(m: map<int32, string>, pairs: seq<(string, int32)>, id: int32)
    requires id in m
    ensures id in EmplaceAll(m, pairs) && EmplaceAll(m, pairs)[id] == m[id]
  {
    if pairs != [] {
      EmplaceAllKeepsOld(m, pairs[..|pairs| - 1], id);
    }
  }

  /** A new id gets the word of its FIRST pair. */
  lemma {:induction false} EmplaceAllFirstWins(m: map<int32, string>, pairs: seq<(string, int32)>, i: nat)
    requires i < |pairs| && pairs[i].1 !in m
    requires forall j :: 0 <= j < i ==> pairs[j].1 != pairs[i].1
    ensures pairs[i].1 in EmplaceAll(m, pairs) && EmplaceAll(m, pairs)[pairs[i].1] == pairs[i].0
  {
    var n := |pairs| - 1;
    var front := pairs[..n];
    if i < n {
      assert front[i] == pairs[i];
      EmplaceAllFirstWins(m, front, i);
    } else {
      EmplaceAllKeys(m, front, pairs[i].1);
    }
  }

  /** Loading the same pairs a second time changes nothing, so the missing
      assignment of `path_` costs a re-read of an unchanged file, not a
      change of the table. */
  lemma EmplaceAllTwice(m: map<int32, string>, pairs: seq<(string, int32)>)
    ensures EmplaceAll(EmplaceAll(m, pairs), pairs) == EmplaceAll(m, pairs)
  {
    forall i | 0 <= i < |pairs| ensures pairs[i].1 in EmplaceAll(m, pairs) {
      EmplaceAllKeys(m, pairs, pairs[i].1);
    }
    EmplaceAllKeep(EmplaceAll(m, pairs), pairs);
  }

  /** Loading pairs whose ids are all present changes nothing. */
  lemma {:induction false} EmplaceAllKeep(m: map<int32, string>, pairs: seq<(string, int32)>)
    requires forall i :: 0 <= i < |pairs| ==> pairs[i].1 in m
    ensures EmplaceAll(m, pairs) == m
  {
    if pairs != [] {
      var n := |pairs| - 1;
      assert forall i :: 0 <= i < n ==> pairs[..n][i] == pairs[i];
      EmplaceAllKeep(m, pairs[..n]);
    }
  }

  class RpcVocabulary {
    /** `path_`: declared, compared, never assigned. */
    var path: string
    /** `vocab_`. */
    var vocab: map<int32, string>

    /** The singleton's state when first used. */
    constructor ()
      ensures path == "" && vocab == map[]
    {
      path := "";
      vocab := map[];
    }

    /** `Init(path)` with `pairs` the (word, id) pairs the file stream
        yields before its first failed read: nothing happens when `p`
        equals the stored path, which stays empty, so only the empty path
        returns early; otherwise every pair is emplaced in file order. */
    method Init(p: string, pairs: seq<(string, int32)>)
      modifies this
      ensures path == old(path)
      ensures p == old(path) ==> vocab == old(vocab)
      ensures p != old(path) ==> vocab == EmplaceAll(old(vocab), pairs)
    {
      if path == p {
        return;
      }
      var i := 0;
      while i < |pairs|
        invariant 0 <= i <= |pairs|
        invariant path == old(path)
        invariant vocab == EmplaceAll(old(vocab), pairs[..i])
      {
        var (word, id) := pairs[i];
        assert pairs[..i + 1][..i] == pairs[..i];
        if id !in vocab {
          vocab := vocab[id := word];
        }
        i := i + 1;
      }
      assert pairs[..|pairs|] == pairs;
    }

    /** `Contains(id)`: the id has a word. */
    method Contains(id: int32) returns (b: bool)
      ensures b <==> id in vocab
    {
      b := id in vocab;
    }

    /** `Get(id)`: the word of the id; `at` throws out_of_range for an
        unknown id. */
    method Get(id: int32) returns (r: Result<string>)
      ensures r.Ok? <==> id in vocab
      ensures r.Ok? ==> r.value == vocab[id]
      ensures r.Err? ==> r.error == OutOfRange
    {
      if id !in vocab {
        return Err(OutOfRange);
      }
      r := Ok(vocab[id]);
    }
  }

  // ---------------------------------------------------------------------
  // RpcRequestStore

  /** The counter after one `GetRequestId`: wraps from INT32_MAX to 0. */
  function NextId(id: int32): (r: int32)
    ensures id == INT32_MAX ==> r == 0
    ensures id != INT32_MAX ==> r as int == id as int + 1
  {
    if id == INT32_MAX then 0 else id + 1
  }

  /** The counter after `k` requests. */
  function NextIdIter(id: int32, k: nat): int32
  {
    if k == 0 then id else NextId(NextIdIter(id, k - 1))
  }

  const IdRange: int := 0x8000_0000

  /** From a non-negative counter, `k` requests advance it by `k` modulo
      2^31: ids repeat only after 2^31 requests. */
  lemma {:induction false} NextIdIterMod(id: int32, k: nat)
    requires id >= 0
    ensures NextIdIter(id, k) as int == (id as int + k) % IdRange
  {
    if k > 0 {
      NextIdIterMod(id, k - 1);
      var prev := NextIdIter(id, k - 1) as int;
      var s := id as int + k - 1;
      var q := s / IdRange;
      assert s == q * IdRange + prev && 0 <= prev < IdRange;
      if prev == IdRange - 1 {
        assert s + 1 == (q + 1) * IdRange;
      } else {
        assert s + 1 == q * IdRange + (prev + 1);
      }
    }
  }

  /** Numbers less than 2^31 apart differ modulo 2^31. */
  lemma ModDistinct(a: int, b: int)
    requires 0 <= a < b < a + IdRange
    ensures a % IdRange != b % IdRange
  {
    var qa, qb := a / IdRange, b / IdRange;
    assert a == qa * IdRange + a % IdRange;
    assert b == qb * IdRange + b % IdRange;
    if qb == qa {
      assert b % IdRange - a % IdRange == b - a;
    } else {
      assert qb == qa + 1;
      assert b % IdRange - a % IdRange == b - a - IdRange;
    }
  }

  /** Two requests fewer than 2^31 apart get different ids. */
  lemma DistinctWithinWindow(id: int32, k: nat, l: nat)
    requires id >= 0 && k < l < k + IdRange
    ensures NextIdIter(id, k) != NextIdIter(id, l)
  {
    var a, b := id as int + k, id as int + l;
    NextIdIterMod(id, k);
    NextIdIterMod(id, l);
    assert NextIdIter(id, k) as int == a % IdRange;
    assert NextIdIter(id, l) as int == b % IdRange;
    ModDistinct(a, b);
  }

  /** A completion event: `shared_ptr<CountdownEvent>`, None for null. */
  type Event = Option<nat>

  class RpcRequestStore {
    /** `request_id_` (zero-initialised: the instance is a function-local static). */
    var requestId: int32
    var events: map<int32, Event>
    var errors: map<int32, int32>
    var responses: map<int32, string>

    /** The counter is never negative: it starts at 0 and only steps up or
        wraps to 0. */
    ghost predicate Valid()
      reads this
    {
      requestId >= 0
    }

    constructor ()
      ensures Valid()
      ensures requestId == 0 && events == map[] && errors == map[] && responses == map[]
    {
      requestId := 0;
      events, errors, responses := map[], map[], map[];
    }

    /** `GetRequestId()`: the next id, after INT32_MAX the id 0. */
    method GetRequestId() returns (id: int32)
      requires Valid()
      modifies this
      ensures Valid()
      ensures requestId == NextId(old(requestId)) && id == requestId
      ensures events == old(events) && errors == old(errors) && responses == old(responses)
    {
      if requestId == INT32_MAX {
        requestId := 0;
      } else {
        requestId := requestId + 1;
      }
      id := requestId;
    }

    /** `GetEvent(id)`: the stored event, null for an unknown id, which is
        then stored. */
    method GetEvent(id: int32) returns (e: Event)
      modifies this
      ensures e == (if id in old(events) then old(events)[id] else None)
      ensures events == AfterRead(old(events), id, None)
      ensures requestId == old(requestId) && errors == old(errors) && responses == old(responses)
    {
      if id !in events {
        events := events[id := None];
      }
      e := events[id];
    }

    /** `GetErrorCode(id)`: whether a non-zero code is stored; an unknown id
        reads as 0 (false), which is then stored. */
    method GetErrorCode(id: int32) returns (failed: bool)
      modifies this
      ensures failed <==> id in old(errors) && old(errors)[id] != 0
      ensures errors == AfterRead(old(errors), id, 0)
      ensures requestId == old(requestId) && events == old(events) && responses == old(responses)
    {
      if id !in errors {
        errors := errors[id := 0];
      }
      failed := errors[id] != 0;
    }

    /** `GetResponse(id)`: the stored response, "" for an unknown id, which
        is then stored. */
    method GetResponse(id: int32) returns (resp: string)
      modifies this
      ensures resp == (if id in old(responses) then old(responses)[id] else "")
      ensures responses == AfterRead(old(responses), id, "")
      ensures requestId == old(requestId) && events == old(events) && errors == old(errors)
    {
      if id !in responses {
        responses := responses[id := ""];
      }
      resp := responses[id];
    }

    /** `InsertEvent(id, event)`: stored unless the id already has one. */
    method InsertEvent(id: int32, e: Event)
      modifies this
      ensures events == Emplace(old(events), id, e)
      ensures requestId == old(requestId) && errors == old(errors) && responses == old(responses)
    {
      if id !in events {
        events := events[id := e];
      }
    }

    /** `InsertErrorCode(id, code)`: stored unless the id already has one. */
    method InsertErrorCode(id: int32, code: int32)
      modifies this
      ensures errors == Emplace(old(errors), id, code)
      ensures requestId == old(requestId) && events == old(events) && responses == old(responses)
    {
      if id !in errors {
        errors := errors[id := code];
      }
    }

    /** `InsertResponse(id, resp)`: stored unless the id already has one. */
    method InsertResponse(id: int32, resp: string)
      modifies this
      ensures responses == Emplace(old(responses), id, resp)
      ensures requestId == old(requestId) && events == old(events) && errors == old(errors)
    {
      if id !in responses {
        responses := responses[id := resp];
      }
    }
  }

  /** Reading an id before anything was inserted for it plants the default,
      and a later insert for that id is then ignored: the read value stays. */
  lemma ReadBeforeInsertKeepsDefault<V>(m: map<int32, V>, id: int32, default: V, v: V)
    requires id !in m
    ensures Emplace(AfterRead(m, id, default), id, v)[id] == default
  {
  }

  /** Reading after an insert returns the inserted value and stores nothing new. */
  lemma ReadAfterInsert<V>(m: map<int32, V>, id: int32, default: V, v: V)
    requires id !in m
    ensures Emplace(m, id, v)[id] == v
    ensures AfterRead(Emplace(m, id, v), id, default) == Emplace(m, id, v)
  {
  }
}
