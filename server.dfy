/**
 * The adapter's web back end (main.js): the in-memory set of installer
 * tokens, the login, check and expiry of those tokens, the gate in front of
 * state writes, the seeding of the adapter's eight states and the
 * `/api/states` read-out. The ioBroker state store is an abstract map from
 * state id to stored state; HTTP replies are values of `Reply`.
 */
module Server {
  import opened Wrappers
  import opened JsValues
  import Decimal

  /** An HTTP reply: status code, the `ok` flag of the JSON body, and the issued token if any. */
  datatype Reply = Reply(status: nat, ok: bool, token: Option<string>)

  /** A state as the store keeps it: its value and its acknowledge flag. */
  datatype StoredState = StoredState(val: JsValue, ack: bool)

  datatype PointType = Boolean | Number

  /** One entry of the adapter's state definitions; role and read/write flags are opaque metadata. */
  datatype StateDef = StateDef(id: string, kind: PointType, role: string, def: JsValue, min: Option<real>, max: Option<real>)

  const InstallerPrefix: string := "installer."

  /**
   * Lifetime of an issued token, in milliseconds (twelve hours). It documents
   * the expiry timer only: time is not modelled, and `Expire` is what the
   * timer does when it fires.
   */
  const TokenLifetimeMs: nat := 12 * 60 * 60 * 1000

  /** The eight states the adapter creates on start-up. */
  const Defs: seq<StateDef> := [
    StateDef("settings.switchA", Boolean, "switch", Bool(false), None, None),
    StateDef("settings.switchB", Boolean, "switch", Bool(false), None, None),
    StateDef("settings.slider1", Number, "level", Num(Fin(1.0)), Some(1.0), Some(2.0)),
    StateDef("settings.slider2", Number, "level", Num(Fin(1.0)), Some(1.0), Some(2.0)),
    StateDef("installer.switchA", Boolean, "switch", Bool(false), None, None),
    StateDef("installer.switchB", Boolean, "switch", Bool(false), None, None),
    StateDef("installer.slider1", Number, "level", Num(Fin(1.0)), Some(1.0), Some(2.0)),
    StateDef("installer.slider2", Number, "level", Num(Fin(1.0)), Some(1.0), Some(2.0))
  ]

  /** The short ids `/api/states` reports, in its order. */
  const StateIds: seq<string> := [
    "settings.switchA", "settings.switchB", "settings.slider1", "settings.slider2",
    "installer.switchA", "installer.switchB", "installer.slider1", "installer.slider2"
  ]

  predicate StartsWith(s: string, prefix: string) {
    |prefix| <= |s| && s[..|prefix|] == prefix
  }

  /** The id of a state inside the adapter's namespace. */
  function FullId(namespace: string, id: string): string {
    namespace + "." + id
  }

  /** The adapter's name, as it registers with ioBroker. */
  const AdapterName: string := "nexowatt-vis"

  /** The namespace ioBroker gives an adapter instance: the adapter name, a dot and the instance number. */
  function InstanceNamespace(instance: nat): string {
    AdapterName + "." + Decimal.NatToDecimal(instance)
  }

  /**
   * ioBroker's id fixing in the adapter's state calls: an id already inside
   * the namespace is used as it is, any other id is put into the namespace.
   */
  function FixId(namespace: string, id: string): (r: string)
    ensures StartsWith(r, namespace + ".")
    ensures StartsWith(id, namespace + ".") ==> r == id
    ensures !StartsWith(id, namespace + ".") ==> r == FullId(namespace, id)
  {
    if StartsWith(id, namespace + ".") then id else FullId(namespace, id)
  }

  /** Fixing an id twice is fixing it once. */
  lemma FixIdIdempotent(namespace: string, id: string)
    ensures FixId(namespace, FixId(namespace, id)) == FixId(namespace, id)
  {
  }

  /**
   * A short id of `/api/states` written through `setStateAsync` lands on the
   * full id that `/api/states` and `_ensureStates` use, in every instance.
   */
  lemma {:induction false} FixIdOfStateId(instance: nat, s: string)
    requires s in StateIds
    ensures FixId(InstanceNamespace(instance), s) == FullId(InstanceNamespace(instance), s)
  {
    var pat := InstanceNamespace(instance) + ".";
    assert pat[0] == 'n' && (s[0] == 's' || s[0] == 'i');
  }

  /** A value written under a short id is what `/api/states` then reports for it. */
  lemma WriteReachesRead(store: map<string, StoredState>, instance: nat, s: string, val: JsValue)
    requires s in StateIds
    ensures StateView(store[FixId(InstanceNamespace(instance), s) := StoredState(val, true)], FullId(InstanceNamespace(instance), s)) == val
  {
    FixIdOfStateId(instance, s);
  }

  /** Different short ids give different full ids. */
  lemma FullIdInjective(namespace: string, a: string, b: string)
    requires FullId(namespace, a) == FullId(namespace, b)
    ensures a == b
  {
    var n := |namespace| + 1;
    assert FullId(namespace, a)[n..] == a;
    assert FullId(namespace, b)[n..] == b;
  }

  /** No two definitions share an id. */
  predicate DistinctIds(defs: seq<StateDef>) {
    forall i, j :: 0 <= i < j < |defs| ==> defs[i].id != defs[j].id
  }

  /** The full ids of a list of definitions. */
  function IdsOf(namespace: string, defs: seq<StateDef>): set<string> {
    set d | d in defs :: FullId(namespace, d.id)
  }

  function FullIds(namespace: string): set<string> {
    IdsOf(namespace, Defs)
  }

  /**
   * The store after `_ensureStates` has walked `defs` in order: each state
   * that does not exist yet is created with its default value, acknowledged;
   * existing states are left alone.
   */
  function Seeded(store: map<string, StoredState>, namespace: string, defs: seq<StateDef>): (r: map<string, StoredState>)
    ensures store.Keys <= r.Keys
    ensures |r| <= |store| + |defs|
  {
    if defs == [] then store
    else
      var prev := Seeded(store, namespace, defs[..|defs| - 1]);
      var d := defs[|defs| - 1];
      if FullId(namespace, d.id) in prev then prev else prev[FullId(namespace, d.id) := StoredState(d.def, true)]
  }

  /** Seeding keeps every existing state as it was. */
  lemma {:induction false} SeededKeeps(store: map<string, StoredState>, namespace: string, defs: seq<StateDef>)
    ensures forall k :: k in store ==> k in Seeded(store, namespace, defs) && Seeded(store, namespace, defs)[k] == store[k]
  {
    if defs != [] {
      SeededKeeps(store, namespace, defs[..|defs| - 1]);
    }
  }

  /** Seeding adds no key besides the full ids of the definitions. */
  lemma {:induction false} SeededOnlyIds(store: map<string, StoredState>, namespace: string, defs: seq<StateDef>)
    ensures forall k :: k in Seeded(store, namespace, defs) ==> k in store || k in IdsOf(namespace, defs)
  {
    if defs != [] {
      var n := |defs| - 1;
      SeededOnlyIds(store, namespace, defs[..n]);
      forall d | d in defs[..n] ensures d in defs {
        var p :| 0 <= p < n && defs[..n][p] == d;
        assert defs[p] == d;
      }
      assert defs[n] in defs;
    }
  }

  /** After seeding, every defined state exists. */
  lemma {:induction false} SeededCreates(store: map<string, StoredState>, namespace: string, defs: seq<StateDef>)
    ensures forall d :: d in defs ==> FullId(namespace, d.id) in Seeded(store, namespace, defs)
  {
    if defs != [] {
      var n := |defs| - 1;
      SeededCreates(store, namespace, defs[..n]);
      forall d | d in defs ensures d in defs[..n] || d == defs[n] {
        var p :| 0 <= p < |defs| && defs[p] == d;
        if p < n { assert defs[..n][p] == d; }
      }
    }
  }

  /** With distinct ids, every state seeding creates holds its definition's default value, acknowledged. */
  lemma SeededDefaults(store: map<string, StoredState>, namespace: string, defs: seq<StateDef>)
    requires DistinctIds(defs)
    ensures forall d :: d in defs && FullId(namespace, d.id) !in store ==>
      FullId(namespace, d.id) in Seeded(store, namespace, defs) &&
      Seeded(store, namespace, defs)[FullId(namespace, d.id)] == StoredState(d.def, true)
  {
    forall d | d in defs && FullId(namespace, d.id) !in store
      ensures FullId(namespace, d.id) in Seeded(store, namespace, defs)
      ensures Seeded(store, namespace, defs)[FullId(namespace, d.id)] == StoredState(d.def, true)
    {
      var p :| 0 <= p < |defs| && defs[p] == d;
      SeededDefault(store, namespace, defs, p);
    }
  }

  /** The same for the definition at position `p`. */
  lemma {:induction false} SeededDefault(store: map<string, StoredState>, namespace: string, defs: seq<StateDef>, p: nat)
    requires DistinctIds(defs) && p < |defs|
    requires FullId(namespace, defs[p].id) !in store
    ensures FullId(namespace, defs[p].id) in Seeded(store, namespace, defs)
    ensures Seeded(store, namespace, defs)[FullId(namespace, defs[p].id)] == StoredState(defs[p].def, true)
  {
    var n := |defs| - 1;
    var init := defs[..n];
    var lastId := FullId(namespace, defs[n].id);
    if p == n {
      SeededOnlyIds(store, namespace, init);
      if lastId in IdsOf(namespace, init) {
        var e :| e in init && FullId(namespace, e.id) == lastId;
        var q :| 0 <= q < n && init[q] == e;
        FullIdInjective(namespace, e.id, defs[n].id);
        assert false;
      }
    } else {
      assert init[p] == defs[p];
      SeededDefault(store, namespace, init, p);
      if FullId(namespace, defs[p].id) == lastId {
        FullIdInjective(namespace, defs[p].id, defs[n].id);
        assert false;
      }
    }
  }

  /** What `crypto.randomBytes(24).toString('hex')` can produce: 48 lower-case hex digits. */
  predicate IsHexToken(t: string) {
    |t| == 48 && forall i :: 0 <= i < |t| ==> ('0' <= t[i] <= '9' || 'a' <= t[i] <= 'f')
  }

  /** `token && this.tokens.has(token)`: a non-empty token header that is in the set. */
  predicate Authenticated(tokens: set<string>, header: Option<string>) {
    header.Some? && header.value != "" && header.value in tokens
  }

  /** The reply of `/api/check`. */
  function CheckReply(tokens: set<string>, header: Option<string>): (r: Reply)
    ensures r.ok <==> header.Some? && header.value != "" && header.value in tokens
    ensures r.status == (if r.ok then 200 else 401)
    ensures r.token == None
  {
    if Authenticated(tokens, header) then Reply(200, true, None) else Reply(401, false, None)
  }

  /**
   * The gate of `/api/state`: a write is refused when its id is present and
   * starts with `installer.` and no valid token is presented.
   */
  function WriteGate(tokens: set<string>, id: Option<string>, header: Option<string>): (allowed: bool)
    ensures !allowed <==> id.Some? && StartsWith(id.value, InstallerPrefix) && !CheckReply(tokens, header).ok
    ensures id.None? || !StartsWith(id.value, InstallerPrefix) ==> allowed
  {
    !(id.Some? && id.value != "" && StartsWith(id.value, InstallerPrefix) && !Authenticated(tokens, header))
  }

  /** A larger token set never closes the gate for a write it let through. */
  lemma GateMonotone(smaller: set<string>, larger: set<string>, id: Option<string>, header: Option<string>)
    requires smaller <= larger
    ensures WriteGate(smaller, id, header) ==> WriteGate(larger, id, header)
  {
  }

  /** The prefix is matched with its dot: `installer` alone, or `installerX`, is not privileged. */
  lemma GateNeedsDot(tokens: set<string>, rest: string)
    ensures WriteGate(tokens, Some("installer"), None)
    ensures WriteGate(tokens, Some("installerX" + rest), None)
    ensures !WriteGate(tokens, Some("installer." + rest), None)
  {
    assert ("installerX" + rest)[..10] != InstallerPrefix by {
      assert ("installerX" + rest)[9] == 'X';
    }
    assert ("installer." + rest)[..10] == InstallerPrefix;
  }

  /**
   * The gate lets a full id through without a token: an id that already
   * carries the namespace does not start with `installer.`, and the id
   * fixing keeps it as it is, so the write lands on the installer state.
   */
  lemma FullIdBypassesGate(tokens: set<string>, instance: nat, x: string, store: map<string, StoredState>, val: JsValue)
    ensures WriteGate(tokens, Some(FullId(InstanceNamespace(instance), "installer." + x)), None)
    ensures var key := FixId(InstanceNamespace(instance), FullId(InstanceNamespace(instance), "installer." + x));
      StateView(store[key := StoredState(val, true)], FullId(InstanceNamespace(instance), "installer." + x)) == val
  {
    var full := FullId(InstanceNamespace(instance), "installer." + x);
    assert full[0] == 'n';
  }

  /** The full installer id of a short id `x` starts with `namespace.installer.`. */
  lemma InstallerFullId(namespace: string, x: string)
    ensures StartsWith(FullId(namespace, "installer." + x), namespace + ".installer.")
  {
    var pre := namespace + ".installer.";
    assert FullId(namespace, "installer." + x) == pre + x;
    assert (pre + x)[..|pre|] == pre;
  }

  /** The gate as it is evidently meant: it tests the id after fixing, so every installer state is guarded. */
  function FixedWriteGate(tokens: set<string>, namespace: string, id: Option<string>, header: Option<string>): (allowed: bool)
    ensures !allowed <==> id.Some? && id.value != "" && StartsWith(FixId(namespace, id.value), namespace + ".installer.") && !CheckReply(tokens, header).ok
  {
    !(id.Some? && id.value != "" && StartsWith(FixId(namespace, id.value), namespace + ".installer.") && !Authenticated(tokens, header))
  }

  /**
   * With the fixed gate, a write that passes without a valid token never
   * reaches an installer state: the key it writes is no installer full id,
   * and what `/api/states` reports for every installer state is unchanged.
   */
  lemma FixedGateGuardsInstaller(tokens: set<string>, namespace: string, id: Option<string>, header: Option<string>,
                                 store: map<string, StoredState>, val: JsValue, x: string)
    requires FixedWriteGate(tokens, namespace, id, header) && !CheckReply(tokens, header).ok
    requires id.Some? && id.value != ""
    ensures FixId(namespace, id.value) != FullId(namespace, "installer." + x)
    ensures StateView(store[FixId(namespace, id.value) := StoredState(val, true)], FullId(namespace, "installer." + x))
         == StateView(store, FullId(namespace, "installer." + x))
  {
    InstallerFullId(namespace, x);
  }

  /** On the short ids the dashboard sends, the fixed gate decides as the gate as written does. */
  lemma FixedGateAgreesOnShortIds(tokens: set<string>, namespace: string, id: string, header: Option<string>)
    requires !StartsWith(id, namespace + ".")
    ensures FixedWriteGate(tokens, namespace, Some(id), header) == WriteGate(tokens, Some(id), header)
  {
    var full := FixId(namespace, id);
    var n := |namespace| + 1;
    assert full == (namespace + ".") + id;
    assert namespace + ".installer." == (namespace + ".") + InstallerPrefix;
    if StartsWith(id, InstallerPrefix) {
      assert full[..n + 10] == (namespace + ".") + id[..10];
    }
    if StartsWith(full, namespace + ".installer.") {
      assert full[n..n + 10] == id[..10];
      assert (namespace + ".installer.")[n..] == InstallerPrefix;
    }
  }

  /** The password sent in the body: `String(req.body.password || '')`, or '' when absent. */
  function SentPassword(password: Option<string>): string {
    match password
    case None => ""
    case Some(p) => p
  }

  /** What `/api/states` reports for one state: its value, or `null` when it has none. */
  function StateView(store: map<string, StoredState>, fullId: string): JsValue {
    if fullId in store then store[fullId].val else Null
  }

  /** `pat` occurs in `s` starting at position `j`. */
  predicate OccursAt(s: string, pat: string, j: nat) {
    j + |pat| <= |s| && s[j..j + |pat|] == pat
  }

  /** First position at or after `from` where `pat` occurs in `s` (`String.prototype.indexOf`). */
  function IndexFrom(s: string, pat: string, from: nat): (r: Option<nat>)
    ensures r.Some? ==> from <= r.value && OccursAt(s, pat, r.value)
    ensures r.Some? ==> forall j: nat :: from <= j < r.value ==> !OccursAt(s, pat, j)
    ensures r.None? ==> forall j: nat :: from <= j ==> !OccursAt(s, pat, j)
    decreases |s| - from
  {
    if from + |pat| > |s| then None
    else if OccursAt(s, pat, from) then Some(from)
    else IndexFrom(s, pat, from + 1)
  }

  /** `s.replace(pat, rep)` with a string pattern: only the first occurrence is replaced. */
  function ReplaceFirst(s: string, pat: string, rep: string): (r: string)
    ensures (forall j: nat :: !OccursAt(s, pat, j)) ==> r == s
    ensures (exists j: nat :: OccursAt(s, pat, j)) ==> |r| == |s| - |pat| + |rep|
  {
    match IndexFrom(s, pat, 0)
    case None => s
    case Some(i) => s[..i] + rep + s[i + |pat|..]
  }

  /** Stripping the namespace from a full id gives back the short id. */
  lemma StripNamespace(namespace: string, id: string)
    ensures ReplaceFirst(FullId(namespace, id), namespace + ".", "") == id
  {
    var full := FullId(namespace, id);
    var pat := namespace + ".";
    assert full[0..|pat|] == pat;
    assert IndexFrom(full, pat, 0) == Some(0);
    assert full[|pat|..] == id;
  }

  /** Every number state is created with a default inside its declared range. */
  lemma NumberDefaultsInRange(i: nat)
    requires i < |Defs|
    ensures Defs[i].kind == Number ==>
      Defs[i].def.Num? && Defs[i].def.n.Fin? && Defs[i].min.Some? && Defs[i].max.Some? &&
      Defs[i].min.value <= Defs[i].def.n.x <= Defs[i].max.value
    ensures Defs[i].kind == Boolean ==> Defs[i].def == Bool(false)
  {
  }

  /** `/api/states` reports exactly the states that `_ensureStates` creates. */
  lemma StateIdsAreDefs()
    ensures |StateIds| == |Defs|
    ensures forall i :: 0 <= i < |Defs| ==> StateIds[i] == Defs[i].id
  {
  }

  class NexowattVis {
    /** Tokens issued by `/api/auth` and not yet expired. */
    var tokens: set<string>
    /** The ioBroker states, keyed by the id passed to the adapter calls. */
    var store: map<string, StoredState>
    /** Ids that have an object definition. */
    var objects: set<string>
    /** The instance number; `namespace` is `nexowatt-vis.<instance>`. */
    const instance: nat
    const namespace: string := InstanceNamespace(instance)
    /** `String(this.config.installerPassword || '')`. */
    const installerPassword: string

    constructor (instance: nat, installerPassword: string, store: map<string, StoredState>, objects: set<string>)
      ensures tokens == {}
      ensures this.store == store && this.objects == objects
      ensures this.instance == instance && namespace == InstanceNamespace(instance)
      ensures this.installerPassword == installerPassword
    {
      this.instance := instance;
      this.installerPassword := installerPassword;
      this.store := store;
      this.objects := objects;
      tokens := {};
    }

    /**
     * `/api/auth`. `candidate` is the freshly generated random token. With no
     * password configured the login is refused (403); on an exact match the
     * token joins the set and is returned; otherwise 401.
     */
    method Auth(password: Option<string>, candidate: string) returns (r: Reply)
      requires IsHexToken(candidate)
      modifies this`tokens
      ensures installerPassword == "" ==> r == Reply(403, false, None) && tokens == old(tokens)
      ensures installerPassword != "" && SentPassword(password) == installerPassword ==>
        r == Reply(200, true, Some(candidate)) && tokens == old(tokens) + {candidate}
      ensures installerPassword != "" && SentPassword(password) != installerPassword ==>
        r == Reply(401, false, None) && tokens == old(tokens)
      ensures old(tokens) <= tokens
      ensures r.ok ==> CheckReply(tokens, r.token).ok && forall id :: WriteGate(tokens, id, r.token)
    {
      var pw := SentPassword(password);
      var expected := installerPassword;
      if expected == "" {
        return Reply(403, false, None);
      }
      if pw != "" && expected != "" && pw == expected {
        tokens := tokens + {candidate};
        return Reply(200, true, Some(candidate));
      }
      r := Reply(401, false, None);
    }

    /** The expiry timer of one token: it removes that token and no other. */
    method Expire(token: string)
      modifies this`tokens
      ensures tokens == old(tokens) - {token}
      ensures !CheckReply(tokens, Some(token)).ok
      ensures forall t :: t != token ==> CheckReply(tokens, Some(t)) == CheckReply(old(tokens), Some(t))
    {
      tokens := tokens - {token};
    }

    /**
     * `/api/state`. `storeAccepts` is the outcome of the store's write call.
     * A missing or empty id passes the gate but cannot be written. The id goes through
     * ioBroker's id fixing, so a short id such as `installer.slider1` writes
     * the state that `/api/states` reports under that name.
     */
    method PostState(id: Option<string>, val: JsValue, header: Option<string>, storeAccepts: bool) returns (r: Reply)
      modifies this`store
      ensures !WriteGate(tokens, id, header) ==> r == Reply(401, false, None) && store == old(store)
      ensures WriteGate(tokens, id, header) && id.Some? && id.value != "" && storeAccepts ==>
        r == Reply(200, true, None) && store == old(store)[FixId(namespace, id.value) := StoredState(val, true)]
      ensures WriteGate(tokens, id, header) && (id.None? || id.value == "" || !storeAccepts) ==>
        r == Reply(500, false, None) && store == old(store)
      ensures r.ok && id.value in StateIds ==> StateView(store, FullId(namespace, id.value)) == val
    {
      if id.Some? && id.value != "" && StartsWith(id.value, InstallerPrefix) && !Authenticated(tokens, header) {
        return Reply(401, false, None);
      }
      if id.Some? && id.value != "" && storeAccepts {
        store := store[FixId(namespace, id.value) := StoredState(val, true)];
        if id.value in StateIds {
          WriteReachesRead(old(store), instance, id.value, val);
        }
        r := Reply(200, true, None);
      } else {
        r := Reply(500, false, None);
      }
    }

    /** `/api/states`: the eight short ids, each with its value or `null`. */
    method GetStates() returns (data: map<string, JsValue>)
      ensures data.Keys == set s | s in StateIds
      ensures forall s :: s in StateIds ==> data[s] == StateView(store, FullId(namespace, s))
    {
      data := ReadStates(StateIds);
    }

    /** The loop of `/api/states` over a list of short ids. */
    method ReadStates(ids: seq<string>) returns (data: map<string, JsValue>)
      ensures data.Keys == set s | s in ids
      ensures forall s :: s in ids ==> data[s] == StateView(store, FullId(namespace, s))
    {
      data := map[];
      var i := 0;
      while i < |ids|
        invariant 0 <= i <= |ids|
        invariant data.Keys == set j | 0 <= j < i :: ids[j]
        invariant forall j :: 0 <= j < i ==> data[ids[j]] == StateView(store, FullId(namespace, ids[j]))
      {
        var fullId := FullId(namespace, ids[i]);
        var val := if fullId in store then store[fullId].val else Null;
        StripNamespace(namespace, ids[i]);
        data := data[ReplaceFirst(fullId, namespace + ".", "") := val];
        i := i + 1;
      }
      assert forall s :: s in ids ==> exists j :: 0 <= j < |ids| && ids[j] == s;
    }

    /**
     * `_ensureStates`: every defined state gets an object and, when it has no
     * state yet, its default value with `ack` set. Existing states are never
     * overwritten and no other state is touched.
     */
    method EnsureStates()
      modifies this`store, this`objects
      ensures objects == old(objects) + FullIds(namespace)
      ensures store == Seeded(old(store), namespace, Defs)
      ensures forall k :: k in old(store) ==> k in store && store[k] == old(store)[k]
      ensures forall d :: d in Defs ==> FullId(namespace, d.id) in store
      ensures forall d :: d in Defs && FullId(namespace, d.id) !in old(store) ==>
        store[FullId(namespace, d.id)] == StoredState(d.def, true)
      ensures forall k :: k in store ==> k in old(store) || k in FullIds(namespace)
    {
      assert DistinctIds(Defs);
      SeedStates(Defs);
      SeededKeeps(old(store), namespace, Defs);
      SeededCreates(old(store), namespace, Defs);
      SeededDefaults(old(store), namespace, Defs);
      SeededOnlyIds(old(store), namespace, Defs);
    }

    /** The loop of `_ensureStates` over a list of definitions. */
    method SeedStates(defs: seq<StateDef>)
      modifies this`store, this`objects
      ensures objects == old(objects) + IdsOf(namespace, defs)
      ensures store == Seeded(old(store), namespace, defs)
    {
      var i := 0;
      while i < |defs|
        invariant 0 <= i <= |defs|
        invariant objects == old(objects) + IdsOf(namespace, defs[..i])
        invariant store == Seeded(old(store), namespace, defs[..i])
      {
        var d := defs[i];
        var fullId := FullId(namespace, d.id);
        assert defs[..i + 1][..i] == defs[..i];
        assert IdsOf(namespace, defs[..i + 1]) == IdsOf(namespace, defs[..i]) + {fullId};
        objects := objects + {fullId};
        if fullId !in store {
          store := store[fullId := StoredState(d.def, true)];
        }
        i := i + 1;
      }
      assert defs[..i] == defs;
    }
  }
}
