/**
 Deleting every session of a user from Redis: a cursor scan whose pages may repeat keys, a read
 of every key met, and a delete by the id found inside the record.
 */
module SessionSweep {
  import opened Options
  import KeyLayout

  /** What a key holds: a decodable session record or something else. */
  datatype Record = Garbage | Session(id: string, expiresAt: int, sub: string, email: string)

  type Data = map<string, Record>

  /** The user looked for, as given and after trimming and lower-casing. */
  datatype Query = Query(prefix: string, subject: string, email: string, now: int,
                         trim: string -> string, lower: string -> string)
  {
    function Subject(): string { trim(subject) }
    function Email(): string { trim(lower(email)) }
    predicate Empty() { Subject() == "" || Email() == "" }
  }

  /** `now` is in whole seconds. */
  predicate Matches(q: Query, r: Record) {
    && r.Session? && r.expiresAt > q.now
    && q.trim(r.sub) == q.Subject() && q.trim(q.lower(r.email)) == q.Email()
  }

  function Visit(q: Query, s: (Data, nat), key: string): (Data, nat) {
    if key in s.0 && Matches(q, s.0[key]) then (s.0 - {q.prefix + s.0[key].id}, s.1 + 1) else s
  }

  function Sweep(q: Query, data: Data, keys: seq<string>): (Data, nat) {
    if keys == [] then (data, 0) else Visit(q, Sweep(q, data, keys[..|keys| - 1]), keys[|keys| - 1])
  }

  function Flatten(pages: seq<seq<string>>): seq<string> {
    if pages == [] then [] else Flatten(pages[..|pages| - 1]) + pages[|pages| - 1]
  }

  class Store {
    var data: Data

    /**
     Goes through the pages the scan delivers; any call may fail and then ends the sweep. What
     was done by then is the sweep of the keys met so far.
     */
    method DeleteSessionsBySubjectEmail(q: Query, pages: seq<seq<string>>) returns (deleted: nat, ok: bool)
      modifies this
      ensures q.trim(q.subject) == "" || q.trim(q.lower(q.email)) == "" ==> data == old(data) && deleted == 0 && ok
      ensures q.trim(q.subject) != "" && q.trim(q.lower(q.email)) != "" ==> exists n ::
                && 0 <= n <= |Flatten(pages)|
                && (data, deleted) == Sweep(q, old(data), Flatten(pages)[..n])
                && (ok ==> n == |Flatten(pages)|)
    {
      deleted, ok := 0, true;
      if q.Empty() {
        return;
      }
      ghost var all := Flatten(pages);
      ghost var n := 0;
      assert all[..0] == [];
      var page := 0;
      while page < |pages|
        invariant 0 <= page <= |pages| && n == |Flatten(pages[..page])|
        invariant Flatten(pages[..page]) <= all
        invariant ok && (data, deleted) == Sweep(q, old(data), all[..n])
      {
        var scanFails := *;
        if scanFails {
          return deleted, false;
        }
        var keys := pages[page];
        PageInside(pages, page);
        for i := 0 to |keys|
          invariant n == |Flatten(pages[..page])| + i <= |all|
          invariant (data, deleted) == Sweep(q, old(data), all[..n])
        {
          assert all[n] == keys[i];
          SweepNext(q, old(data), all, n);
          deleted, ok := VisitKey(q, keys[i], deleted);
          if !ok {
            return;
          }
          n := n + 1;
        }
        page := page + 1;
      }
      assert pages[..|pages|] == pages;
      assert all[..|all|] == all;
    }

    /** One key met by the scan: read it and, if it is the user's session, delete by its id. */
    method VisitKey(q: Query, key: string, before: nat) returns (deleted: nat, ok: bool)
      modifies this
      ensures (data, deleted) == if ok then Visit(q, (old(data), before), key) else (old(data), before)
    {
      var getFails, deleteFails := *, *;
      if getFails {
        return before, false;
      }
      if key in data && Matches(q, data[key]) {
        if deleteFails {
          return before, false;
        }
        data := data - {q.prefix + data[key].id};
        return before + 1, true;
      }
      return before, true;
    }
  }

  lemma SweepNext(q: Query, data: Data, keys: seq<string>, n: nat)
    requires n < |keys|
    ensures Sweep(q, data, keys[..n + 1]) == Visit(q, Sweep(q, data, keys[..n]), keys[n])
  {
    assert keys[..n + 1][..n] == keys[..n];
  }

  lemma {:induction false} PageInside(pages: seq<seq<string>>, page: nat)
    requires page < |pages|
    ensures Flatten(pages[..page + 1]) == Flatten(pages[..page]) + pages[page]
    ensures Flatten(pages[..page + 1]) <= Flatten(pages)
    decreases |pages| - page
  {
    assert pages[..page + 1][..page] == pages[..page];
    if page + 1 == |pages| {
      assert pages[..page + 1] == pages;
    } else {
      PageInside(pages, page + 1);
    }
  }

  // ---------------------------------------------------------------- exactness

  /** Every record under the scanned prefix sits at the key made from its own id. */
  ghost predicate OwnKeys(q: Query, data: Data) {
    forall key :: key in data && Matches(q, data[key]) && q.prefix <= key ==> key == q.prefix + data[key].id
  }

  ghost function Doomed(q: Query, data: Data, keys: seq<string>): set<string> {
    set key | key in data && Matches(q, data[key]) && key in keys
  }

  function Also(q: Query, data: Data, doomed: set<string>, key: string): set<string> {
    if key in data && Matches(q, data[key]) then doomed + {key} else doomed
  }

  lemma VisitIsExact(q: Query, data: Data, doomed: set<string>, key: string)
    requires OwnKeys(q, data) && q.prefix <= key
    ensures Visit(q, (data - doomed, |doomed|), key) ==
            (data - Also(q, data, doomed, key), |Also(q, data, doomed, key)|)
  {
    var left := data - doomed;
    if key in left && Matches(q, left[key]) {
      assert key == q.prefix + left[key].id;
      assert left - {key} == data - (doomed + {key});
    } else {
      assert key in data && Matches(q, data[key]) ==> doomed + {key} == doomed;
    }
  }

  lemma DoomedStep(q: Query, data: Data, keys: seq<string>)
    requires keys != []
    ensures Doomed(q, data, keys) == Also(q, data, Doomed(q, data, keys[..|keys| - 1]), keys[|keys| - 1])
  {
    assert keys == keys[..|keys| - 1] + [keys[|keys| - 1]];
  }

  lemma {:induction false} SweepIsExact(q: Query, data: Data, keys: seq<string>)
    requires OwnKeys(q, data) && forall key :: key in keys ==> q.prefix <= key
    ensures Sweep(q, data, keys) == (data - Doomed(q, data, keys), |Doomed(q, data, keys)|)
  {
    if keys == [] {
      assert Doomed(q, data, keys) == {};
      assert data - {} == data;
    } else {
      var front, key := keys[..|keys| - 1], keys[|keys| - 1];
      assert key in keys && forall k :: k in front ==> k in keys;
      SweepIsExact(q, data, front);
      VisitIsExact(q, data, Doomed(q, data, front), key);
      DoomedStep(q, data, keys);
    }
  }

  /**
   A sweep without errors over pages that cover all keys under the prefix, in any order and with
   any repetition, removes exactly the unexpired matching sessions and counts each of them once.
   */
  lemma CompleteSweepIsExact(q: Query, data: Data, pages: seq<seq<string>>)
    requires OwnKeys(q, data)
    requires forall key :: key in Flatten(pages) ==> q.prefix <= key
    requires forall key :: key in data && q.prefix <= key ==> key in Flatten(pages)
    ensures var doomed := set key | key in data && Matches(q, data[key]) && q.prefix <= key;
            Sweep(q, data, Flatten(pages)) == (data - doomed, |doomed|)
  {
    SweepIsExact(q, data, Flatten(pages));
    var doomed := set key | key in data && Matches(q, data[key]) && q.prefix <= key;
    assert doomed == Doomed(q, data, Flatten(pages));
  }

  /** The user's session: not expired, with the subject and the email looked for, however they are written. */
  predicate Theirs(q: Query, r: Record) {
    && r.Session? && q.now < r.expiresAt
    && q.trim(r.sub) == q.trim(q.subject)
    && q.trim(q.lower(r.email)) == q.trim(q.lower(q.email))
  }

  /** Record by record: gone are exactly the user's unexpired sessions under the prefix, all others are unchanged. */
  lemma SweptExactlyTheirs(q: Query, data: Data, pages: seq<seq<string>>, key: string)
    requires OwnKeys(q, data)
    requires forall k :: k in Flatten(pages) ==> q.prefix <= k
    requires forall k :: k in data && q.prefix <= k ==> k in Flatten(pages)
    requires key in data
    ensures var (left, deleted) := Sweep(q, data, Flatten(pages));
            && (key in left <==> !(q.prefix <= key && Theirs(q, data[key])))
            && (key in left ==> left[key] == data[key])
            && deleted == |set k | k in data && q.prefix <= k && Theirs(q, data[k])|
  {
    CompleteSweepIsExact(q, data, pages);
    assert (set k | k in data && q.prefix <= k && Theirs(q, data[k]))
        == (set k | k in data && Matches(q, data[k]) && q.prefix <= k);
  }

  /** A sweep cut short by an error has removed matching sessions only, and counted those it removed. */
  lemma PartialSweepIsSound(q: Query, data: Data, pages: seq<seq<string>>, n: nat)
    requires OwnKeys(q, data) && n <= |Flatten(pages)|
    requires forall key :: key in Flatten(pages) ==> q.prefix <= key
    ensures var (left, deleted) := Sweep(q, data, Flatten(pages)[..n]);
            && left.Keys <= data.Keys && (forall key :: key in left ==> left[key] == data[key])
            && (forall key :: key in data && key !in left ==> Matches(q, data[key]))
            && deleted == |data.Keys - left.Keys|
  {
    var keys := Flatten(pages)[..n];
    assert forall k :: k in keys ==> k in Flatten(pages);
    SweepIsExact(q, data, keys);
    assert data.Keys - (data - Doomed(q, data, keys)).Keys == Doomed(q, data, keys);
  }

  // ---------------------------------------------------------------- exact only if every record is where its id says

  /** A record of the user that does not sit at the key made from its own id. */
  predicate Misplaced(q: Query, data: Data, key: string) {
    key in data && Matches(q, data[key]) && q.prefix <= key && key != q.prefix + data[key].id
  }

  /** A sweep only removes. */
  lemma {:induction false} SweepShrinks(q: Query, data: Data, keys: seq<string>)
    ensures var left := Sweep(q, data, keys).0;
            left.Keys <= data.Keys && forall key :: key in left ==> left[key] == data[key]
  {
    if keys != [] {
      SweepShrinks(q, data, keys[..|keys| - 1]);
    }
  }

  /**
   Deleting a misplaced record by its id removes some other key. So of the misplaced records the
   sweep has met, the one it counted last is still there; and those it has not met are.
   */
  lemma {:induction false} MisplacedSurvives(q: Query, data: Data, keys: seq<string>) returns (m: Option<string>)
    requires forall key :: key in keys ==> q.prefix <= key
    ensures var left := Sweep(q, data, keys).0;
            match m
            case Some(key) => Misplaced(q, data, key) && key in left
            case None => forall key :: Misplaced(q, data, key) ==> key in left && key !in keys
  {
    m := None;
    if keys != [] {
      var front, key := keys[..|keys| - 1], keys[|keys| - 1];
      assert keys == front + [key];
      assert key in keys && forall k :: k in front ==> k in keys;
      m := MisplacedSurvives(q, data, front);
      SweepShrinks(q, data, front);
      m := VisitSpares(q, data, Sweep(q, data, front), key, m);
    }
  }

  lemma VisitSpares(q: Query, data: Data, s: (Data, nat), key: string, m: Option<string>) returns (n: Option<string>)
    requires q.prefix <= key && s.0.Keys <= data.Keys && forall k :: k in s.0 ==> s.0[k] == data[k]
    requires m.Some? ==> Misplaced(q, data, m.value) && m.value in s.0
    requires m.None? ==> forall k :: Misplaced(q, data, k) ==> k in s.0
    ensures var left := Visit(q, s, key).0;
            match n
            case Some(k) => Misplaced(q, data, k) && k in left
            case None => m.None? && !Misplaced(q, data, key) && forall k :: Misplaced(q, data, k) ==> k in left
  {
    n := if key in s.0 && Misplaced(q, data, key) then Some(key) else m;
  }

  /**
   On pages that cover the prefix: the sweep removes exactly the user's unexpired sessions under it
   if and only if each of them sits at the key made from its own id.
   */
  lemma ExactIffOwnKeys(q: Query, data: Data, pages: seq<seq<string>>)
    requires forall key :: key in Flatten(pages) ==> q.prefix <= key
    requires forall key :: key in data && q.prefix <= key ==> key in Flatten(pages)
    ensures var doomed := set key | key in data && Matches(q, data[key]) && q.prefix <= key;
            && (Sweep(q, data, Flatten(pages)).0 == data - doomed <==> OwnKeys(q, data))
            && (Sweep(q, data, Flatten(pages)) == (data - doomed, |doomed|) <==> OwnKeys(q, data))
  {
    if OwnKeys(q, data) {
      CompleteSweepIsExact(q, data, pages);
    } else {
      var key :| key in data && Matches(q, data[key]) && q.prefix <= key && key != q.prefix + data[key].id;
      assert Misplaced(q, data, key);
      var m := MisplacedSurvives(q, data, Flatten(pages));
      assert m.Some?;
      SurvivorSpoils(q, data, Sweep(q, data, Flatten(pages)).0, m.value);
    }
  }

  lemma SurvivorSpoils(q: Query, data: Data, left: Data, m: string)
    requires Misplaced(q, data, m) && m in left
    ensures left != data - (set key | key in data && Matches(q, data[key]) && q.prefix <= key)
  {
    var doomed := set key | key in data && Matches(q, data[key]) && q.prefix <= key;
    assert m in doomed;
  }

  // ---------------------------------------------------------------- in the configured namespaces

  ghost predicate SessionAt(cs: seq<KeyLayout.Connector>, data: Data, key: string, j: nat) {
    && j < |cs| && key in data && data[key].Session? && KeyLayout.ColonFree(data[key].id)
    && key == KeyLayout.Key(cs[j], KeyLayout.SessionKind, data[key].id)
  }

  /** Session records are under session keys, each at the key of its connector and its own id. */
  ghost predicate WellKept(cs: seq<KeyLayout.Connector>, data: Data) {
    forall key :: key in data && data[key].Session? ==> exists j :: SessionAt(cs, data, key, j)
  }

  /** A session of the user on a connector other than the default one that is named "session". */
  ghost predicate ForeignMatch(cs: seq<KeyLayout.Connector>, q: Query, data: Data, key: string, j: nat) {
    SessionAt(cs, data, key, j) && !cs[j].isDefault && cs[j].id == "session" && Matches(q, data[key])
  }

  /** Where the scan of connector i meets a session, and whether deleting by id finds it again. */
  lemma MetSession(cs: seq<KeyLayout.Connector>, base: string, i: nat, data: Data, key: string, j: nat)
    requires KeyLayout.Namespaced(cs, base) && i < |cs| && SessionAt(cs, data, key, j)
    ensures var prefix := KeyLayout.SessionPrefix(cs[i]);
            && (prefix <= key <==> j == i || (cs[i].isDefault && !cs[j].isDefault && cs[j].id == "session"))
            && (prefix <= key ==> (key == prefix + data[key].id <==> j == i))
  {
    var prefix, id := KeyLayout.SessionPrefix(cs[i]), data[key].id;
    KeyLayout.ScanMeetsOwnSessions(cs, base, i, j, KeyLayout.SessionKind, KeyLayout.Plain(id));
    assert KeyLayout.StartsWith(key, prefix) <==> prefix <= key;
    OwnKeyIsPrefixed(cs[j], id);
    if prefix <= key && j != i {
      ForeignPrefixIsLonger(cs, base, i, j);
    }
  }

  lemma OwnKeyIsPrefixed(c: KeyLayout.Connector, id: string)
    ensures KeyLayout.Key(c, KeyLayout.SessionKind, id) == KeyLayout.SessionPrefix(c) + id
  {
    assert ":" + "session" + ":" == ":session:";
    assert KeyLayout.Base(c.prefix) + ":" + "session" + ":" == KeyLayout.Base(c.prefix) + ":session:";
  }

  lemma ForeignPrefixIsLonger(cs: seq<KeyLayout.Connector>, base: string, i: nat, j: nat)
    requires KeyLayout.Namespaced(cs, base) && i < |cs| && j < |cs| && cs[i].isDefault && !cs[j].isDefault
    ensures |KeyLayout.SessionPrefix(cs[j])| > |KeyLayout.SessionPrefix(cs[i])|
  {
    assert cs[j].prefix == base + ":" + cs[j].id && cs[i].prefix == base;
  }

  /** The sweep of connector i finds its records where their ids say, exactly unless it meets a foreign match. */
  lemma OwnKeysIffNoForeignMatch(cs: seq<KeyLayout.Connector>, base: string, i: nat, q: Query, data: Data)
    requires KeyLayout.Namespaced(cs, base) && i < |cs| && WellKept(cs, data)
    requires q.prefix == KeyLayout.SessionPrefix(cs[i])
    ensures OwnKeys(q, data) <==> !(cs[i].isDefault && exists key, j :: ForeignMatch(cs, q, data, key, j))
  {
    if cs[i].isDefault && exists key, j :: ForeignMatch(cs, q, data, key, j) {
      var key, j :| ForeignMatch(cs, q, data, key, j);
      MetSession(cs, base, i, data, key, j);
    }
    if !OwnKeys(q, data) {
      var key :| key in data && Matches(q, data[key]) && q.prefix <= key && key != q.prefix + data[key].id;
      var j :| SessionAt(cs, data, key, j);
      MetSession(cs, base, i, data, key, j);
      assert ForeignMatch(cs, q, data, key, j);
    }
  }

  /**
   For a configured store: the sweep of connector i is exact if and only if it is not the default
   connector or the user has no session on a connector named "session".
   */
  lemma ConfiguredSweepIsExact(cs: seq<KeyLayout.Connector>, base: string, i: nat, q: Query, data: Data,
                               pages: seq<seq<string>>)
    requires KeyLayout.Namespaced(cs, base) && i < |cs| && WellKept(cs, data)
    requires q.prefix == KeyLayout.SessionPrefix(cs[i])
    requires forall key :: key in Flatten(pages) ==> q.prefix <= key
    requires forall key :: key in data && q.prefix <= key ==> key in Flatten(pages)
    ensures var doomed := set key | key in data && Matches(q, data[key]) && q.prefix <= key;
            Sweep(q, data, Flatten(pages)) == (data - doomed, |doomed|) <==>
              !(cs[i].isDefault && exists key, j :: ForeignMatch(cs, q, data, key, j))
  {
    OwnKeysIffNoForeignMatch(cs, base, i, q, data);
    ExactIffOwnKeys(q, data, pages);
  }

  /**
   The default connector's sweep meets every such session, counts it every time it meets it, and
   never removes it.
   */
  lemma ForeignRecordIsMiscounted(cs: seq<KeyLayout.Connector>, base: string, i: nat, q: Query, data: Data,
                                  keys: seq<string>, key: string, j: nat)
    requires KeyLayout.Namespaced(cs, base) && i < |cs| && cs[i].isDefault && WellKept(cs, data)
    requires q.prefix == KeyLayout.SessionPrefix(cs[i]) && ForeignMatch(cs, q, data, key, j)
    ensures q.prefix <= key
    ensures key in Sweep(q, data, keys).0
    ensures Sweep(q, data, keys + [key]).1 == Sweep(q, data, keys).1 + 1
  {
    MetSession(cs, base, i, data, key, j);
    ForeignSurvives(cs, base, i, q, data, keys, key, j);
    SweepShrinks(q, data, keys);
    assert (keys + [key])[..|keys|] == keys;
  }

  lemma ForeignSurvives(cs: seq<KeyLayout.Connector>, base: string, i: nat, q: Query, data: Data,
                        keys: seq<string>, key: string, j: nat)
    requires KeyLayout.Namespaced(cs, base) && i < |cs| && cs[i].isDefault && WellKept(cs, data)
    requires q.prefix == KeyLayout.SessionPrefix(cs[i]) && ForeignMatch(cs, q, data, key, j)
    ensures key in Sweep(q, data, keys).0
  {
    MetSession(cs, base, i, data, key, j);
    ConfiguredMisplacedApart(cs, base, i, q, data);
    MisplacedStays(q, data, keys, key);
  }

  lemma {:induction false} MisplacedStays(q: Query, data: Data, keys: seq<string>, key: string)
    requires MisplacedApart(q, data) && Misplaced(q, data, key)
    ensures key in Sweep(q, data, keys).0
  {
    if keys != [] {
      MisplacedStays(q, data, keys[..|keys| - 1], key);
      SweepShrinks(q, data, keys[..|keys| - 1]);
    }
  }

  /** No key the default connector makes from an id is a key of another connector. */
  lemma KeysStayApart(cs: seq<KeyLayout.Connector>, base: string, i: nat, j: nat, theirs: string, id: string)
    requires KeyLayout.Namespaced(cs, base) && i < |cs| && j < |cs| && i != j
    requires KeyLayout.ColonFree(theirs) && KeyLayout.ColonFree(id)
    ensures KeyLayout.SessionPrefix(cs[i]) + id != KeyLayout.Key(cs[j], KeyLayout.SessionKind, theirs)
  {
    OwnKeyIsPrefixed(cs[i], id);
    if KeyLayout.SessionPrefix(cs[i]) + id == KeyLayout.Key(cs[j], KeyLayout.SessionKind, theirs) {
      KeyLayout.KeysAreInjective(cs, base, i, KeyLayout.SessionKind, KeyLayout.Plain(id),
                                 j, KeyLayout.SessionKind, KeyLayout.Plain(theirs));
    }
  }

  // ---------------------------------------------------------------- what exactly is left

  /** The keys a sweep deletes: for each matching record met, the one made from its id. */
  ghost function Targets(q: Query, data: Data, keys: seq<string>): set<string> {
    set key | key in data && Matches(q, data[key]) && key in keys :: q.prefix + data[key].id
  }

  /** No record's id leads to a misplaced record. */
  ghost predicate MisplacedApart(q: Query, data: Data) {
    forall k, m :: k in data && Matches(q, data[k]) && Misplaced(q, data, m) ==> q.prefix + data[k].id != m
  }

  lemma {:induction false} SweepLeaves(q: Query, data: Data, keys: seq<string>)
    requires MisplacedApart(q, data) && forall key :: key in keys ==> q.prefix <= key
    ensures Sweep(q, data, keys).0 == data - Targets(q, data, keys)
  {
    if keys == [] {
      assert Targets(q, data, keys) == {};
      assert data - {} == data;
    } else {
      var front, key := keys[..|keys| - 1], keys[|keys| - 1];
      assert key in keys && forall k :: k in front ==> k in keys;
      SweepLeaves(q, data, front);
      TargetsStep(q, data, keys);
      VisitLeaves(q, data, Sweep(q, data, front), Targets(q, data, front), key);
    }
  }

  lemma TargetsStep(q: Query, data: Data, keys: seq<string>)
    requires keys != []
    ensures var front, key := keys[..|keys| - 1], keys[|keys| - 1];
            Targets(q, data, keys) == Targets(q, data, front) +
              if key in data && Matches(q, data[key]) then {q.prefix + data[key].id} else {}
  {
    assert keys == keys[..|keys| - 1] + [keys[|keys| - 1]];
  }

  lemma VisitLeaves(q: Query, data: Data, s: (Data, nat), gone: set<string>, key: string)
    requires MisplacedApart(q, data) && q.prefix <= key && s.0 == data - gone
    requires forall t :: t in gone ==> exists k :: k in data && Matches(q, data[k]) && t == q.prefix + data[k].id
    ensures Visit(q, s, key).0 ==
            data - (gone + if key in data && Matches(q, data[key]) then {q.prefix + data[key].id} else {})
  {
    if key in data && Matches(q, data[key]) {
      if key in s.0 {
        assert data - gone - {q.prefix + data[key].id} == data - (gone + {q.prefix + data[key].id});
      } else {
        assert key in gone && !Misplaced(q, data, key);
        assert gone + {q.prefix + data[key].id} == gone;
      }
    } else {
      assert gone + {} == gone;
    }
  }

  ghost predicate OwnMatch(cs: seq<KeyLayout.Connector>, q: Query, data: Data, key: string, i: nat) {
    SessionAt(cs, data, key, i) && Matches(q, data[key])
  }

  /** A key made from the id of a foreign match: whoever's session is there is deleted instead. */
  ghost predicate Alias(cs: seq<KeyLayout.Connector>, q: Query, data: Data, key: string) {
    exists f, j :: ForeignMatch(cs, q, data, f, j) && key == q.prefix + data[f].id
  }

  lemma ConfiguredMisplacedApart(cs: seq<KeyLayout.Connector>, base: string, i: nat, q: Query, data: Data)
    requires KeyLayout.Namespaced(cs, base) && i < |cs| && WellKept(cs, data)
    requires q.prefix == KeyLayout.SessionPrefix(cs[i])
    ensures MisplacedApart(q, data)
  {
    forall k, m | k in data && Matches(q, data[k]) && Misplaced(q, data, m) ensures q.prefix + data[k].id != m {
      var n :| SessionAt(cs, data, k, n);
      var j :| SessionAt(cs, data, m, j);
      MetSession(cs, base, i, data, m, j);
      KeysStayApart(cs, base, i, j, data[m].id, data[k].id);
    }
  }

  /**
   What a complete sweep of connector i leaves, key by key: all but the user's sessions on that
   connector and, for the default connector, all but the keys made from the ids of the user's
   sessions on a connector named "session". What is left is unchanged.
   */
  lemma ConfiguredSweepLeaves(cs: seq<KeyLayout.Connector>, base: string, i: nat, q: Query, data: Data,
                              pages: seq<seq<string>>, key: string)
    requires KeyLayout.Namespaced(cs, base) && i < |cs| && WellKept(cs, data)
    requires q.prefix == KeyLayout.SessionPrefix(cs[i])
    requires forall k :: k in Flatten(pages) ==> q.prefix <= k
    requires forall k :: k in data && q.prefix <= k ==> k in Flatten(pages)
    requires key in data
    ensures var left := Sweep(q, data, Flatten(pages)).0;
            && (key in left <==> !OwnMatch(cs, q, data, key, i) && !(cs[i].isDefault && Alias(cs, q, data, key)))
            && (key in left ==> left[key] == data[key])
  {
    ConfiguredMisplacedApart(cs, base, i, q, data);
    SweepLeaves(q, data, Flatten(pages));
    TargetsAre(cs, base, i, q, data, Flatten(pages), key);
  }

  lemma TargetsAre(cs: seq<KeyLayout.Connector>, base: string, i: nat, q: Query, data: Data, keys: seq<string>,
                   key: string)
    requires KeyLayout.Namespaced(cs, base) && i < |cs| && WellKept(cs, data) && key in data
    requires q.prefix == KeyLayout.SessionPrefix(cs[i])
    requires forall k :: k in keys ==> q.prefix <= k
    requires forall k :: k in data && q.prefix <= k ==> k in keys
    ensures key in Targets(q, data, keys) <==>
              OwnMatch(cs, q, data, key, i) || (cs[i].isDefault && Alias(cs, q, data, key))
  {
    if key in Targets(q, data, keys) {
      var k :| k in data && Matches(q, data[k]) && k in keys && key == q.prefix + data[k].id;
      var j :| SessionAt(cs, data, k, j);
      MetIsOurs(cs, base, i, q, data, k, j);
    }
    if OwnMatch(cs, q, data, key, i) {
      MetIsTarget(cs, base, i, q, data, keys, key, i);
    }
    if cs[i].isDefault && Alias(cs, q, data, key) {
      var f, j :| ForeignMatch(cs, q, data, f, j) && key == q.prefix + data[f].id;
      MetIsTarget(cs, base, i, q, data, keys, f, j);
    }
  }

  /** A matching session under the prefix is one of this connector, or of one named "session". */
  lemma MetIsOurs(cs: seq<KeyLayout.Connector>, base: string, i: nat, q: Query, data: Data, key: string, j: nat)
    requires KeyLayout.Namespaced(cs, base) && i < |cs| && OwnMatch(cs, q, data, key, j)
    requires q.prefix == KeyLayout.SessionPrefix(cs[i]) && q.prefix <= key
    ensures if j == i then key == q.prefix + data[key].id
            else cs[i].isDefault && ForeignMatch(cs, q, data, key, j)
  {
    MetSession(cs, base, i, data, key, j);
  }

  /** A matching session the scan meets is deleted by its id. */
  lemma MetIsTarget(cs: seq<KeyLayout.Connector>, base: string, i: nat, q: Query, data: Data, keys: seq<string>,
                    key: string, j: nat)
    requires KeyLayout.Namespaced(cs, base) && i < |cs| && OwnMatch(cs, q, data, key, j)
    requires q.prefix == KeyLayout.SessionPrefix(cs[i])
    requires j == i || (cs[i].isDefault && !cs[j].isDefault && cs[j].id == "session")
    requires forall k :: k in data && q.prefix <= k ==> k in keys
    ensures q.prefix + data[key].id in Targets(q, data, keys)
    ensures j == i ==> key == q.prefix + data[key].id
  {
    MetSession(cs, base, i, data, key, j);
  }
}
