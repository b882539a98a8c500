/** The life of agent-to-agent API keys (src/graphclaw/a2a/key_manager.py).

    `Store` and `Next` are the specification; A2AKeyManager implements it. Generated keys are fresh, and the digest
    is a parameter, assumed injective and never empty. */
module KeyManager {
  import opened Options
  import opened Sequences
  import opened Sorting

  type NodeId = string
  type UserId = string
  type Key = string

  /** A resource node; only those of resource type AI_AGENT are searched for keys. */
  datatype Node = Node(userId: UserId, isAgent: bool, keyHash: Option<string>, createdAt: int)
  type Store = map<NodeId, Node>

  const KEY_PREFIX := "wg_agent_"

  datatype Call =
    | Register(user: UserId, id: NodeId, key: Key, now: int)
    | Rotate(user: UserId, id: NodeId, key: Key)
    | Revoke(user: UserId, id: NodeId)

  predicate Owned(s: Store, id: NodeId, user: UserId) {
    id in s && s[id].userId == user
  }

  /** Rotating or revoking a node that is not there or not the user's raises KeyError and changes nothing. */
  function Next(s: Store, c: Call, digest: Key -> string): Store {
    match c
    case Register(user, id, key, now) => s[id := Node(user, true, Some(digest(key)), now)]
    case Rotate(user, id, key) => if Owned(s, id, user) then s[id := s[id].(keyHash := Some(digest(key)))] else s
    case Revoke(user, id) => if Owned(s, id, user) then s[id := s[id].(keyHash := None)] else s
  }

  /** What `verify_key` looks for. */
  ghost predicate Verifies(s: Store, digest: Key -> string, key: Key, user: UserId) {
    && KEY_PREFIX <= key
    && exists id :: id in s && s[id].isAgent && s[id].keyHash == Some(digest(key)) && s[id].userId == user
  }

  ghost predicate GoodDigest(digest: Key -> string) {
    forall a, b :: digest(a) != "" && (digest(a) == digest(b) ==> a == b)
  }

  // ---------------------------------------------------------------- whole runs

  predicate HasKey(c: Call) { c.Register? || c.Rotate? }

  /** Call `i` uses a new node id, and a key with the prefix that no earlier call has used. */
  ghost predicate Fresh(ss: seq<Store>, cs: seq<Call>, i: nat)
    requires i < |cs| < |ss|
  {
    && (cs[i].Register? ==> cs[i].id !in ss[i])
    && (HasKey(cs[i]) ==> KEY_PREFIX <= cs[i].key && forall j :: 0 <= j < i && HasKey(cs[j]) ==> cs[j].key != cs[i].key)
  }

  ghost predicate StepAt(ss: seq<Store>, cs: seq<Call>, digest: Key -> string, i: nat)
    requires i < |cs| < |ss|
  {
    Fresh(ss, cs, i) && ss[i + 1] == Next(ss[i], cs[i], digest)
  }

  /** A run from a store without agent keys; it may hold any other nodes. */
  ghost predicate IsRun(ss: seq<Store>, cs: seq<Call>, digest: Key -> string) {
    && |ss| == |cs| + 1
    && (forall id :: id in ss[0] && ss[0][id].isAgent ==> ss[0][id].keyHash == None)
    && forall i :: 0 <= i < |cs| ==> StepAt(ss, cs, digest, i)
  }

  // ---------------------------------------------------------------- whose node it is

  predicate Registers(c: Call, id: NodeId) { c.Register? && c.id == id }

  /** Read off the store at the start and the first `n` calls: node `id` is the user's. */
  ghost predicate Belongs(s0: Store, cs: seq<Call>, id: NodeId, n: nat, user: UserId)
    requires n <= |cs|
  {
    || (id in s0 && s0[id].userId == user)
    || exists k :: 0 <= k < n && Registers(cs[k], id) && cs[k].user == user
  }

  /** And it is an agent node. */
  ghost predicate AgentOf(s0: Store, cs: seq<Call>, id: NodeId, n: nat, user: UserId)
    requires n <= |cs|
  {
    || (id in s0 && s0[id].userId == user && s0[id].isAgent)
    || exists k :: 0 <= k < n && Registers(cs[k], id) && cs[k].user == user
  }

  /** Owner, kind and creation time of a node never change. */
  lemma {:induction false} NodesKeepTheirOrigin(ss: seq<Store>, cs: seq<Call>, digest: Key -> string, id: NodeId, m: nat,
                                                n: nat)
    requires IsRun(ss, cs, digest) && m <= n <= |cs| && id in ss[m]
    ensures id in ss[n] && ss[n][id].userId == ss[m][id].userId && ss[n][id].isAgent == ss[m][id].isAgent
    ensures ss[n][id].createdAt == ss[m][id].createdAt
    decreases n
  {
    if m < n {
      NodesKeepTheirOrigin(ss, cs, digest, id, m, n - 1);
      assert StepAt(ss, cs, digest, n - 1);
    }
  }

  /** A registered node is, for good, an agent node of the user who registered it, created when it was registered. */
  lemma RegisteredNodeIsTheUsers(ss: seq<Store>, cs: seq<Call>, digest: Key -> string, i: nat, n: nat)
    requires IsRun(ss, cs, digest) && i < n <= |cs| && cs[i].Register?
    ensures cs[i].id in ss[n] && ss[n][cs[i].id].userId == cs[i].user
    ensures ss[n][cs[i].id].isAgent && ss[n][cs[i].id].createdAt == cs[i].now
  {
    assert StepAt(ss, cs, digest, i);
    NodesKeepTheirOrigin(ss, cs, digest, cs[i].id, i + 1, n);
  }

  /** A node is there from the start, or some call has registered it. */
  lemma {:induction false} NodesComeFrom(ss: seq<Store>, cs: seq<Call>, digest: Key -> string, id: NodeId, n: nat)
    requires IsRun(ss, cs, digest) && n <= |cs|
    ensures id in ss[n] <==> id in ss[0] || exists k :: 0 <= k < n && Registers(cs[k], id)
    decreases n
  {
    if n > 0 {
      NodesComeFrom(ss, cs, digest, id, n - 1);
      assert StepAt(ss, cs, digest, n - 1);
    }
  }

  /** So the calls alone say whose a node is. */
  lemma OwnerIsOrigin(ss: seq<Store>, cs: seq<Call>, digest: Key -> string, id: NodeId, n: nat, user: UserId)
    requires IsRun(ss, cs, digest) && n <= |cs|
    ensures Belongs(ss[0], cs, id, n, user) <==> id in ss[n] && ss[n][id].userId == user
    ensures AgentOf(ss[0], cs, id, n, user) <==> id in ss[n] && ss[n][id].userId == user && ss[n][id].isAgent
  {
    NodesComeFrom(ss, cs, digest, id, n);
    if id in ss[0] {
      NodesKeepTheirOrigin(ss, cs, digest, id, 0, n);
      forall k | 0 <= k < n
        ensures !Registers(cs[k], id)
      {
        NodesKeepTheirOrigin(ss, cs, digest, id, 0, k);
        assert StepAt(ss, cs, digest, k);
      }
    } else {
      forall k | 0 <= k < n && Registers(cs[k], id)
        ensures id in ss[n] && ss[n][id].userId == cs[k].user && ss[n][id].isAgent
      {
        RegisteredNodeIsTheUsers(ss, cs, digest, k, n);
      }
    }
  }

  // ---------------------------------------------------------------- standing keys

  /** Call `i` issues a key for node `id`. */
  ghost predicate Issues(s0: Store, cs: seq<Call>, i: nat, id: NodeId)
    requires i < |cs|
  {
    cs[i].id == id && (cs[i].Register? || (cs[i].Rotate? && Belongs(s0, cs, id, i, cs[i].user)))
  }

  ghost predicate Revokes(s0: Store, cs: seq<Call>, i: nat, id: NodeId)
    requires i < |cs|
  {
    cs[i].id == id && cs[i].Revoke? && Belongs(s0, cs, id, i, cs[i].user)
  }

  /** Call `i` issued a key for node `id`, and up to `n` none was issued for it or revoked on it since. */
  ghost predicate Standing(s0: Store, cs: seq<Call>, i: nat, id: NodeId, n: nat)
    requires n <= |cs|
  {
    && i < n && Issues(s0, cs, i, id)
    && forall j :: i < j < n ==> !Issues(s0, cs, j, id) && !Revokes(s0, cs, j, id)
  }

  /** Call `i` issued `key` for an agent node of `user`'s, and the key stands. */
  ghost predicate StandsFor(s0: Store, cs: seq<Call>, i: nat, id: NodeId, n: nat, key: Key, user: UserId)
    requires n <= |cs|
  {
    Standing(s0, cs, i, id, n) && HasKey(cs[i]) && cs[i].key == key && AgentOf(s0, cs, id, n, user)
  }

  /** A node's hash is the digest of its standing key, and it has one exactly when it has a standing key. */
  ghost predicate HashIsStanding(ss: seq<Store>, cs: seq<Call>, digest: Key -> string, id: NodeId, n: nat)
    requires |cs| < |ss| && n <= |cs| && id in ss[n]
  {
    && (forall i: nat :: Standing(ss[0], cs, i, id, n) ==>
          HasKey(cs[i]) && ss[n][id].keyHash == Some(digest(cs[i].key)))
    && (ss[n][id].keyHash.Some? ==> exists i: nat :: Standing(ss[0], cs, i, id, n))
  }

  lemma {:induction false} HashMeansStandingKey(ss: seq<Store>, cs: seq<Call>, digest: Key -> string, id: NodeId, n: nat)
    requires IsRun(ss, cs, digest) && n <= |cs| && id in ss[n] && ss[n][id].isAgent
    ensures HashIsStanding(ss, cs, digest, id, n)
    decreases n
  {
    if n > 0 {
      var m := n - 1;
      assert StepAt(ss, cs, digest, m);
      OwnerIsOrigin(ss, cs, digest, id, m, cs[m].user);
      if Issues(ss[0], cs, m, id) {
        assert Standing(ss[0], cs, m, id, n);
        forall i: nat | Standing(ss[0], cs, i, id, n)
          ensures i == m
        {
        }
      } else if Revokes(ss[0], cs, m, id) {
      } else {
        assert ss[n][id] == ss[m][id];
        HashMeansStandingKey(ss, cs, digest, id, m);
        forall i: nat
          ensures Standing(ss[0], cs, i, id, n) <==> Standing(ss[0], cs, i, id, m)
        {
          StandingStep(ss[0], cs, i, id, m);
        }
      }
    }
  }

  lemma StandingStep(s0: Store, cs: seq<Call>, i: nat, id: NodeId, m: nat)
    requires m < |cs| && !Issues(s0, cs, m, id) && !Revokes(s0, cs, m, id)
    ensures Standing(s0, cs, i, id, m + 1) <==> Standing(s0, cs, i, id, m)
  {
  }

  /** After any run, a key verifies, and to user `user`, exactly when it is the key most recently issued for some agent
      node of that user's, with no revocation since; all of that read off the calls and the store at the start. */
  lemma KeyVerifiesWhileItStands(ss: seq<Store>, cs: seq<Call>, digest: Key -> string, n: nat, key: Key, user: UserId)
    requires GoodDigest(digest) && IsRun(ss, cs, digest) && n <= |cs|
    ensures Verifies(ss[n], digest, key, user) <==>
            exists i: nat, id :: StandsFor(ss[0], cs, i, id, n, key, user)
  {
    if Verifies(ss[n], digest, key, user) {
      var id :| id in ss[n] && ss[n][id].isAgent && ss[n][id].keyHash == Some(digest(key)) && ss[n][id].userId == user;
      HashMeansStandingKey(ss, cs, digest, id, n);
      var i: nat :| Standing(ss[0], cs, i, id, n);
      assert digest(cs[i].key) == digest(key);
      OwnerIsOrigin(ss, cs, digest, id, n, user);
      assert StandsFor(ss[0], cs, i, id, n, key, user);
    }
    if exists i: nat, id :: StandsFor(ss[0], cs, i, id, n, key, user) {
      var i: nat, id :| StandsFor(ss[0], cs, i, id, n, key, user);
      OwnerIsOrigin(ss, cs, digest, id, n, user);
      HashMeansStandingKey(ss, cs, digest, id, n);
      assert StepAt(ss, cs, digest, i);
    }
  }

  /** So a key verifies to one user only. */
  lemma VerifiesToOneUser(ss: seq<Store>, cs: seq<Call>, digest: Key -> string, n: nat, key: Key, a: UserId, b: UserId)
    requires GoodDigest(digest) && IsRun(ss, cs, digest) && n <= |cs|
    requires Verifies(ss[n], digest, key, a) && Verifies(ss[n], digest, key, b)
    ensures a == b
  {
    KeyVerifiesWhileItStands(ss, cs, digest, n, key, a);
    KeyVerifiesWhileItStands(ss, cs, digest, n, key, b);
    var i: nat, x :| StandsFor(ss[0], cs, i, x, n, key, a);
    var j: nat, y :| StandsFor(ss[0], cs, j, y, n, key, b);
    SameKeySameCall(ss, cs, digest, i, j);
    OwnerIsOrigin(ss, cs, digest, x, n, a);
    OwnerIsOrigin(ss, cs, digest, y, n, b);
  }

  lemma SameKeySameCall(ss: seq<Store>, cs: seq<Call>, digest: Key -> string, i: nat, j: nat)
    requires IsRun(ss, cs, digest) && i < |cs| && j < |cs|
    requires HasKey(cs[i]) && HasKey(cs[j]) && cs[i].key == cs[j].key
    ensures i == j
  {
    assert StepAt(ss, cs, digest, i) && StepAt(ss, cs, digest, j);
  }

  /** A key that has been issued and does not verify any more, because of a rotation or a revocation, never will again. */
  lemma StaleKeysStayStale(ss: seq<Store>, cs: seq<Call>, digest: Key -> string, i: nat, n: nat, m: nat, user: UserId)
    requires GoodDigest(digest) && IsRun(ss, cs, digest) && i < n <= m <= |cs|
    requires Issues(ss[0], cs, i, cs[i].id) && !Standing(ss[0], cs, i, cs[i].id, n)
    ensures !Verifies(ss[m], digest, cs[i].key, user)
  {
    KeyVerifiesWhileItStands(ss, cs, digest, m, cs[i].key, user);
    if Verifies(ss[m], digest, cs[i].key, user) {
      var k: nat, id :| StandsFor(ss[0], cs, k, id, m, cs[i].key, user);
      SameKeySameCall(ss, cs, digest, i, k);
      assert Standing(ss[0], cs, i, cs[i].id, n);
    }
  }

  /** Rotating a node that is not an agent hands out a key that does not verify. */
  lemma RotatingAnotherNodeIsUseless(ss: seq<Store>, cs: seq<Call>, digest: Key -> string, i: nat, user: UserId)
    requires GoodDigest(digest) && IsRun(ss, cs, digest) && i < |cs|
    requires cs[i].Rotate? && cs[i].id in ss[i] && !ss[i][cs[i].id].isAgent
    ensures !Verifies(ss[i + 1], digest, cs[i].key, user)
  {
    assert StepAt(ss, cs, digest, i);
    KeyVerifiesWhileItStands(ss, cs, digest, i + 1, cs[i].key, user);
    if Verifies(ss[i + 1], digest, cs[i].key, user) {
      var k: nat, id :| StandsFor(ss[0], cs, k, id, i + 1, cs[i].key, user);
      SameKeySameCall(ss, cs, digest, i, k);
      OwnerIsOrigin(ss, cs, digest, id, i + 1, user);
    }
  }

  // ---------------------------------------------------------------- the manager

  datatype KeyRef = KeyRef(id: NodeId, user: UserId, createdAt: int)

  ghost predicate ListedFor(s: Store, user: UserId, r: KeyRef) {
    && r.id in s && s[r.id].isAgent && s[r.id].userId == r.user == user && r.createdAt == s[r.id].createdAt
    && s[r.id].keyHash.Some? && s[r.id].keyHash.value != ""
  }

  class A2AKeyManager {
    var store: Store
    const digest: Key -> string

    constructor (store: Store, digest: Key -> string)
      ensures this.store == store && this.digest == digest
    {
      this.store, this.digest := store, digest;
    }

    /** The node id, the suffix and the time come from generators. */
    method RegisterAgent(user: UserId, id: NodeId, suffix: string, now: int) returns (key: Key)
      requires id !in store
      modifies this
      ensures key == "wg_agent_" + suffix && store == Next(old(store), Register(user, id, key, now), digest)
      ensures store.Keys == old(store).Keys + {id} && forall k :: k in old(store) ==> store[k] == old(store)[k]
      ensures store[id].userId == user && store[id].isAgent && store[id].createdAt == now
      ensures Verifies(store, digest, key, user)
    {
      key := KEY_PREFIX + suffix;
      store := store[id := Node(user, true, Some(digest(key)), now)];
    }

    /** None stands for the KeyError. */
    method RotateKey(user: UserId, id: NodeId, suffix: string) returns (key: Option<Key>)
      modifies this
      ensures store == Next(old(store), Rotate(user, id, KEY_PREFIX + suffix), digest)
      ensures key == if id in old(store) && old(store)[id].userId == user then Some("wg_agent_" + suffix) else None
      ensures key.None? ==> store == old(store)
      ensures key.Some? ==> store == old(store)[id := old(store)[id].(keyHash := Some(digest(key.value)))]
    {
      if id !in store || store[id].userId != user {
        return None;
      }
      key := Some(KEY_PREFIX + suffix);
      store := store[id := store[id].(keyHash := Some(digest(key.value)))];
    }

    method RevokeKey(user: UserId, id: NodeId) returns (ok: bool)
      modifies this
      ensures store == Next(old(store), Revoke(user, id), digest)
      ensures ok == (id in old(store) && old(store)[id].userId == user)
      ensures store == if ok then old(store)[id := old(store)[id].(keyHash := None)] else old(store)
    {
      ok := id in store && store[id].userId == user;
      if ok {
        store := store[id := store[id].(keyHash := None)];
      }
    }

    /** The agent nodes, in whatever order the store lists them. */
    method ListNodes() returns (ids: seq<NodeId>)
      ensures NoDup(ids) && forall id :: id in ids <==> id in store && store[id].isAgent
    {
      ids := [];
      var rest := store.Keys;
      while rest != {}
        invariant rest <= store.Keys && NoDup(ids)
        invariant forall id :: id in ids <==> id in store && id !in rest && store[id].isAgent
        decreases rest
      {
        var id :| id in rest;
        rest := rest - {id};
        if store[id].isAgent {
          ids := ids + [id];
        }
      }
    }

    method VerifyKey(key: Key) returns (user: Option<UserId>)
      requires GoodDigest(digest)
      ensures user.Some? ==> "wg_agent_" <= key && Verifies(store, digest, key, user.value)
      ensures user.None? ==> forall u :: !Verifies(store, digest, key, u)
    {
      if !(KEY_PREFIX <= key) {
        return None;
      }
      var incoming := digest(key);
      var ids := ListNodes();
      for i := 0 to |ids|
        invariant forall j :: 0 <= j < i ==> store[ids[j]].keyHash != Some(incoming)
      {
        var stored := store[ids[i]].keyHash;
        if stored.None? || stored.value == "" {
          continue;
        }
        if stored.value == incoming {
          return Some(store[ids[i]].userId);
        }
      }
      return None;
    }

    method ListAgents(user: UserId) returns (refs: seq<KeyRef>)
      ensures forall r :: r in refs <==> ListedFor(store, user, r)
      ensures NoDup(refs) && forall i, j :: 0 <= i < j < |refs| ==> refs[i].createdAt <= refs[j].createdAt
    {
      var ids := ListNodes();
      var found: seq<KeyRef> := [];
      for i := 0 to |ids|
        invariant forall r :: r in found <==> ListedFor(store, user, r) && r.id in ids[..i]
        invariant NoDup(found)
      {
        var id, node := ids[i], store[ids[i]];
        if node.userId == user && node.keyHash.Some? && node.keyHash.value != "" {
          assert KeyRef(id, user, node.createdAt) !in found;
          found := found + [KeyRef(id, user, node.createdAt)];
        }
      }
      refs := Sort(found, (r: KeyRef) => (r.createdAt, 0));
      assert forall r :: r in refs <==> r in Elements(refs);
      assert forall r :: r in found <==> r in Elements(found);
    }
  }

  /** What listing shows, over a whole run and read off its calls: the user's agent nodes with a standing key. */
  lemma ListedMeansStandingKey(ss: seq<Store>, cs: seq<Call>, digest: Key -> string, n: nat, user: UserId, id: NodeId)
    requires GoodDigest(digest) && IsRun(ss, cs, digest) && n <= |cs|
    ensures (exists at :: ListedFor(ss[n], user, KeyRef(id, user, at))) <==>
            AgentOf(ss[0], cs, id, n, user) && exists i: nat :: Standing(ss[0], cs, i, id, n)
  {
    OwnerIsOrigin(ss, cs, digest, id, n, user);
    if AgentOf(ss[0], cs, id, n, user) {
      HashMeansStandingKey(ss, cs, digest, id, n);
      if ss[n][id].keyHash.Some? {
        var i: nat :| Standing(ss[0], cs, i, id, n);
        assert ListedFor(ss[n], user, KeyRef(id, user, ss[n][id].createdAt));
      }
    }
  }

  /** And with the time at which it was registered. */
  lemma ListedWithItsTime(ss: seq<Store>, cs: seq<Call>, digest: Key -> string, i: nat, n: nat, user: UserId, at: int)
    requires IsRun(ss, cs, digest) && i < n <= |cs| && cs[i].Register?
    requires ListedFor(ss[n], user, KeyRef(cs[i].id, user, at))
    ensures cs[i].user == user && cs[i].now == at
  {
    RegisteredNodeIsTheUsers(ss, cs, digest, i, n);
  }
}
