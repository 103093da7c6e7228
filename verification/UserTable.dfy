// src/server/utils/auth_table.c: the chained hash table of users.
module UserTable {
  import opened Bytes

  /** The contents of a C string. */
  type cstring = s: seq<byte> | 0 !in s

  const HASHMAP_SIZE := 1031

  /** The longest name or password that an entry's 256 bytes hold. */
  const MAX_LEN := 255

  // ---- djb2 ----

  const WORD := 0x1_0000_0000_0000_0000

  /** A `char` is signed, and is widened with its sign. */
  function Signed(c: byte): int { if c < 128 then c else c - 256 }

  function Mix(h: int, c: byte): int { (h * 33 + Signed(c)) % WORD }

  function Djb2(s: seq<byte>): int {
    if s == [] then 5381 else Mix(Djb2(s[..|s| - 1]), s[|s| - 1])
  }

  function Hash(s: seq<byte>): (h: nat)
    ensures h < HASHMAP_SIZE
  {
    Djb2(s) % HASHMAP_SIZE
  }

  method HashOf(s: cstring) returns (h: nat)
    ensures h == Hash(s)
  {
    var acc := 5381;
    for i := 0 to |s|
      invariant acc == Djb2(s[..i])
    {
      assert s[..i + 1][..i] == s[..i];
      acc := Mix(acc, s[i]);
    }
    assert s[..|s|] == s;
    return acc % HASHMAP_SIZE;
  }

  function Power(n: nat): nat { if n == 0 then 1 else 33 * Power(n - 1) }

  /** The characters as the digits of a number in base 33, each from -128 to 127. */
  function Digits(s: seq<byte>): int {
    if s == [] then 0 else (if s[0] < 128 then s[0] else s[0] - 256) * Power(|s| - 1) + Digits(s[1..])
  }

  lemma {:induction false} OneMoreDigit(s: seq<byte>, c: byte)
    ensures Digits(s + [c]) == Digits(s) * 33 + if c < 128 then c else c - 256
  {
    if s == [] {
      assert [] + [c] == [c] && [c][1..] == [] && Power(0) == 1;
    } else {
      var d: int, p := if s[0] < 128 then s[0] else (s[0] as int) - 256, Power(|s| - 1);
      assert (s + [c])[1..] == s[1..] + [c];
      OneMoreDigit(s[1..], c);
      assert Power(|s|) == 33 * p && d * (33 * p) == (d * p) * 33;
    }
  }

  lemma {:induction false} Djb2Is(s: seq<byte>)
    ensures Djb2(s) == (5381 * Power(|s|) + Digits(s)) % 0x1_0000_0000_0000_0000
  {
    if s != [] {
      var init, c := s[..|s| - 1], s[|s| - 1];
      assert s == init + [c];
      Djb2Is(init);
      OneMoreDigit(init, c);
      MixWraps(5381 * Power(|init|) + Digits(init), c);
    }
  }

  lemma {:induction false} MixWraps(x: int, c: byte)
    ensures Mix(x % WORD, c) == (x * 33 + if c < 128 then c else c - 256) % WORD
  {
    var q, r := x / WORD, x % WORD;
    Wraps(r * 33 + Signed(c), q * 33);
    assert x == q * WORD + r;
  }

  lemma {:induction false} Wraps(y: int, k: int)
    ensures (y + k * WORD) % WORD == y % WORD
  {
  }

  /** The bucket of a name is that number, on top of 5381 as its first digit, within 64 bits, modulo 1031. */
  lemma {:induction false} BucketIs(s: seq<byte>)
    ensures Hash(s) == (5381 * Power(|s|) + Digits(s)) % 0x1_0000_0000_0000_0000 % 1031
  {
    Djb2Is(s);
  }

  // ---- What the table holds ----

  datatype User = User(name: cstring, password: cstring)

  type Chains = c: seq<seq<User>> | |c| == HASHMAP_SIZE witness seq(HASHMAP_SIZE, _ => [])

  /** `strncpy` into an entry. */
  function Truncated(s: cstring): cstring { if |s| <= MAX_LEN then s else s[..MAX_LEN] }

  /** The position of the first entry with that name, or the length. */
  function Find(chain: seq<User>, name: cstring): (k: nat)
    ensures k <= |chain| && (k < |chain| ==> chain[k].name == name)
    ensures forall j :: 0 <= j < k ==> chain[j].name != name
  {
    if chain == [] || chain[0].name == name then 0 else 1 + Find(chain[1..], name)
  }

  function Added(t: Chains, name: cstring, password: cstring): (Chains, bool) {
    var chain := t[Hash(name)];
    if Find(chain, name) < |chain| then (t, false)
    else (t[Hash(name) := [User(Truncated(name), Truncated(password))] + chain], true)
  }

  function Removed(t: Chains, name: cstring): (Chains, bool) {
    var chain := t[Hash(name)];
    var k := Find(chain, name);
    if k == |chain| then (t, false) else (t[Hash(name) := chain[..k] + chain[k + 1..]], true)
  }

  predicate Checked(t: Chains, name: cstring, password: cstring) {
    User(name, password) in t[Hash(name)]
  }

  // ---- Listing ----

  const NEWLINE: byte := 10
  const END_LINE: seq<byte> := [69, 78, 68, 10]

  function Line(name: cstring): seq<byte> { name + [NEWLINE] }

  /** What `snprintf` leaves of a line in the room it is given. */
  function Fitting(line: seq<byte>, room: nat): seq<byte> {
    if |line| < room then line else if room == 0 then [] else line[..room - 1]
  }

  /** The response and the length reported for it. A name that does not fit ends the list, cut short
      and not counted; END is counted even where it is cut short. */
  function Listing(names: seq<cstring>, room: nat): (seq<byte>, nat) {
    if names == [] then
      if room == 0 then ([], 0) else (Fitting(END_LINE, room), |END_LINE|)
    else if |Line(names[0])| >= room then (Fitting(Line(names[0]), room), 0)
    else
      var (text, written) := Listing(names[1..], room - |Line(names[0])|);
      (Line(names[0]) + text, |Line(names[0])| + written)
  }

  function NamesOf(chain: seq<User>): seq<cstring> {
    if chain == [] then [] else [chain[0].name] + NamesOf(chain[1..])
  }

  /** Every name, chain after chain. */
  function AllNames(t: seq<seq<User>>): seq<cstring> {
    if t == [] then [] else NamesOf(t[0]) + AllNames(t[1..])
  }

  // ---- The object ----

  class UserEntry {
    const username: cstring
    const password: cstring
    ghost const bucket: nat
    var next: UserEntry?

    constructor (username: cstring, password: cstring, next: UserEntry?, ghost bucket: nat)
      ensures this.username == username && this.password == password && this.next == next && this.bucket == bucket
    {
      this.username, this.password, this.next, this.bucket := username, password, next, bucket;
    }
  }

  ghost function Nth(spine: seq<UserEntry>, i: nat): UserEntry? {
    if i < |spine| then spine[i] else null
  }

  ghost function Users(spine: seq<UserEntry>): seq<User> {
    seq(|spine|, i requires 0 <= i < |spine| => User(spine[i].username, spine[i].password))
  }

  /** The nodes of `spine` are different and linked in order from `head` to null. */
  ghost predicate IsChain(head: UserEntry?, spine: seq<UserEntry>)
    reads spine
  {
    && head == Nth(spine, 0)
    && (forall i, j :: 0 <= i < |spine| && j == i + 1 ==> spine[i].next == Nth(spine, j))
    && (forall i, j :: 0 <= i < j < |spine| ==> spine[i] != spine[j])
  }

  ghost function ChainsOf(spines: seq<seq<UserEntry>>): Chains
    requires |spines| == HASHMAP_SIZE
  {
    seq(HASHMAP_SIZE, b requires 0 <= b < HASHMAP_SIZE => Users(spines[b]))
  }

  lemma {:induction false} PushIsChain(user: UserEntry, spine: seq<UserEntry>)
    requires IsChain(user.next, spine) && user !in spine
    ensures IsChain(user, [user] + spine)
    ensures Users([user] + spine) == [User(user.username, user.password)] + Users(spine)
  {
    var longer := [user] + spine;
    forall i, j | 0 <= i < |longer| && j == i + 1
      ensures longer[i].next == Nth(longer, j)
    {
      assert i > 0 ==> longer[i] == spine[i - 1] && spine[i - 1].next == Nth(spine, i);
    }
  }

  lemma {:induction false} ChainAt(spines: seq<seq<UserEntry>>, h: nat)
    requires h < |spines| == HASHMAP_SIZE
    ensures ChainsOf(spines)[h] == Users(spines[h]) && |Users(spines[h])| == |spines[h]|
  {
  }

  lemma {:induction false} ChainsUpdate(spines: seq<seq<UserEntry>>, h: nat, spine: seq<UserEntry>)
    requires h < |spines| == HASHMAP_SIZE
    ensures ChainsOf(spines[h := spine]) == ChainsOf(spines)[h := Users(spine)]
  {
  }

  ghost function Without(spine: seq<UserEntry>, k: nat): seq<UserEntry>
    requires k < |spine|
    ensures Users(Without(spine, k)) == Users(spine)[..k] + Users(spine)[k + 1..]
  {
    spine[..k] + spine[k + 1..]
  }

  /** When the link to one node has been replaced by that node's own link. */
  lemma {:induction false} UnlinkedIsChain(head: UserEntry?, spine: seq<UserEntry>, k: nat)
    requires k < |spine| && head == (if k == 0 then Nth(spine, 1) else spine[0])
    requires forall i, j :: 0 <= i < j < |spine| ==> spine[i] != spine[j]
    requires forall i, j :: 0 <= i < |spine| && j == i + 1 && j != k ==> spine[i].next == Nth(spine, j)
    requires k > 0 ==> spine[k - 1].next == Nth(spine, k + 1)
    ensures IsChain(head, Without(spine, k))
  {
    var shorter := Without(spine, k);
    forall i, j | 0 <= i < |shorter| && j == i + 1
      ensures shorter[i].next == Nth(shorter, j)
    {
      var o := if i < k then i else i + 1;
      assert shorter[i] == spine[o] && (o + 1 != k ==> spine[o].next == Nth(spine, o + 1));
    }
  }

  class UserTable {
    const hashmap: array<UserEntry?>
    ghost var spines: seq<seq<UserEntry>>
    ghost var nodes: set<UserEntry>

    ghost predicate Valid()
      reads this, hashmap, nodes
    {
      && hashmap.Length == HASHMAP_SIZE == |spines|
      && (forall b, i | 0 <= b < HASHMAP_SIZE && 0 <= i < |spines[b]| :: spines[b][i] in nodes && spines[b][i].bucket == b)
      && (forall b | 0 <= b < HASHMAP_SIZE :: IsChain(hashmap[b], spines[b]))
    }

    ghost function AsChains(): Chains
      reads this, hashmap, nodes
      requires Valid()
    {
      ChainsOf(spines)
    }

    constructor ()
      ensures Valid() && fresh(hashmap) && nodes == {} && AsChains() == Empty()
    {
      hashmap := new UserEntry?[HASHMAP_SIZE](_ => null);
      spines, nodes := seq(HASHMAP_SIZE, _ => []), {};
      new;
      assert AsChains() == Empty();
    }

    /** The walk along a chain that add and remove share: where the name is, or the end. */
    method Search(h: nat, name: cstring) returns (curr: UserEntry?, ghost k: nat)
      requires Valid() && h < HASHMAP_SIZE
      ensures k == Find(Users(spines[h]), name) && curr == Nth(spines[h], k)
    {
      curr, k := hashmap[h], 0;
      while curr != null && curr.username != name
        invariant k <= |spines[h]| && curr == Nth(spines[h], k)
        invariant forall j :: 0 <= j < k ==> spines[h][j].username != name
        decreases |spines[h]| - k
      {
        curr := curr.next;
        k := k + 1;
      }
      FindIs(Users(spines[h]), name, k);
    }

    method AddUser(username: cstring, password: cstring) returns (ok: bool)
      requires Valid()
      modifies this, hashmap
      ensures Valid() && (AsChains(), ok) == Added(old(AsChains()), username, password)
      ensures fresh(nodes - old(nodes))
    {
      var h := HashOf(username);
      hide Truncated, Hash, ChainsOf, Users;
      ChainAt(spines, h);
      var curr, k := Search(h, username);
      if curr != null {
        return false;
      }
      var user := new UserEntry(Truncated(username), Truncated(password), hashmap[h], h);
      hashmap[h] := user;
      PushIsChain(user, spines[h]);
      ChainsUpdate(spines, h, [user] + spines[h]);
      spines := spines[h := [user] + spines[h]];
      nodes := nodes + {user};
      return true;
    }

    method SearchWithPrevious(h: nat, username: cstring) returns (prev: UserEntry?, entry: UserEntry?, ghost k: nat)
      requires Valid() && h < HASHMAP_SIZE
      ensures k == Find(Users(spines[h]), username) <= |spines[h]|
      ensures entry == Nth(spines[h], k) && prev == (if k == 0 then null else spines[h][k - 1])
    {
      hide Hash, ChainsOf;
      prev, entry, k := null, hashmap[h], 0;
      ghost var spine := spines[h];
      ChainAt(spines, h);
      while entry != null && entry.username != username
        invariant k <= |spine| && entry == Nth(spine, k) && prev == (if k == 0 then null else spine[k - 1])
        invariant forall j :: 0 <= j < k ==> spine[j].username != username
        decreases |spine| - k
      {
        prev, entry := entry, entry.next;
        k := k + 1;
      }
      FindIs(Users(spine), username, k);
    }

    method RemoveUser(username: cstring) returns (ok: bool)
      requires Valid()
      modifies this, hashmap, nodes
      ensures Valid() && (AsChains(), ok) == Removed(old(AsChains()), username)
      ensures nodes == old(nodes)
    {
      hide Hash, ChainsOf;
      var h := HashOf(username);
      ChainAt(spines, h);
      var prev, entry, k := SearchWithPrevious(h, username);
      if entry == null {
        return false;
      }
      Unlink(h, prev, entry, k);
      return true;
    }

    /** The chain goes past the entry. */
    method Unlink(h: nat, prev: UserEntry?, entry: UserEntry, ghost k: nat)
      requires Valid() && h < HASHMAP_SIZE && k < |spines[h]|
      requires entry == spines[h][k] && prev == (if k == 0 then null else spines[h][k - 1])
      modifies this, hashmap, nodes
      ensures Valid() && nodes == old(nodes)
      ensures var chain := old(AsChains())[h]; k < |chain| && AsChains() == old(AsChains())[h := chain[..k] + chain[k + 1..]]
    {
      hide ChainsOf;
      ChainAt(spines, h);
      ghost var spine := spines[h];
      if prev == null {
        hashmap[h] := entry.next;
      } else {
        prev.next := entry.next;
      }
      ghost var shorter := Without(spine, k);
      ChainsUpdate(spines, h, shorter);
      spines := spines[h := shorter];
      UnlinkedIsChain(hashmap[h], spine, k);
    }

    method CheckCredentials(username: cstring, password: cstring) returns (ok: bool)
      requires Valid()
      ensures ok == Checked(AsChains(), username, password)
    {
      hide Hash;
      var h := HashOf(username);
      var curr := hashmap[h];
      ghost var spine, k := spines[h], 0;
      ChainAt(spines, h);
      while curr != null
        invariant k <= |spine| && curr == Nth(spine, k)
        invariant forall j :: 0 <= j < k ==> Users(spine)[j] != User(username, password)
        decreases |spine| - k
      {
        if curr.username == username && curr.password == password {
          assert Users(spine)[k] == User(username, password);
          return true;
        }
        curr := curr.next;
        k := k + 1;
      }
      return false;
    }

    method ListUsers(size: nat) returns (response: seq<byte>, written: nat)
      requires Valid()
      ensures (response, written) == Listing(AllNames(AsChains()), size)
    {
      hide Listing, ChainsOf;
      ghost var all := Listing(AllNames(AsChains()), size);
      response, written := [], 0;
      assert AsChains()[0..] == AsChains() && [] + all.0 == all.0;
      for b := 0 to HASHMAP_SIZE
        invariant written <= size && Prefixed(response, written, Listing(AllNames(AsChains()[b..]), size - written)) == all
      {
        ghost var rest := AllNames(AsChains()[b + 1..]);
        assert AsChains()[b..][1..] == AsChains()[b + 1..];
        ChainAt(spines, b);
        ghost var spine, k := spines[b], 0;
        assert Users(spine)[0..] == Users(spine);
        var curr := hashmap[b];
        while curr != null
          invariant k <= |spine| && curr == Nth(spine, k)
          invariant written <= size
          invariant Prefixed(response, written, Listing(NamesOf(Users(spine)[k..]) + rest, size - written)) == all
          decreases |spine| - k
        {
          var line := Line(curr.username);
          ghost var names := NamesOf(Users(spine)[k + 1..]) + rest;
          assert Users(spine)[k..][1..] == Users(spine)[k + 1..];
          assert NamesOf(Users(spine)[k..]) + rest == [curr.username] + names;
          ListingStep(curr.username, names, size - written);
          var left := if |line| < size - written then size - written - |line| else 0;
          PrefixedTwice(response, written, line, |line|, Listing(names, left));
          response := response + Fitting(line, size - written);
          if |line| >= size - written {
            return;
          }
          written := written + |line|;
          curr := curr.next;
          k := k + 1;
        }
        assert NamesOf([]) + rest == rest;
      }
      assert AsChains()[HASHMAP_SIZE..] == [];
      ListingEnd(size - written);
      assert response + [] == response;
      if written < size {
        response := response + Fitting(END_LINE, size - written);
        written := written + |END_LINE|;
      }
    }
  }

  function Prefixed(response: seq<byte>, written: nat, rest: (seq<byte>, nat)): (seq<byte>, nat) {
    (response + rest.0, written + rest.1)
  }

  lemma {:induction false} PrefixedTwice(a: seq<byte>, m: nat, b: seq<byte>, n: nat, rest: (seq<byte>, nat))
    ensures Prefixed(a, m, Prefixed(b, n, rest)) == Prefixed(a + b, m + n, rest)
  {
    assert a + (b + rest.0) == a + b + rest.0;
  }

  lemma {:induction false} ListingStep(name: cstring, names: seq<cstring>, room: nat)
    ensures Listing([name] + names, room)
         == if |Line(name)| >= room then (Fitting(Line(name), room), 0)
            else Prefixed(Line(name), |Line(name)|, Listing(names, room - |Line(name)|))
  {
  }

  lemma {:induction false} ListingEnd(room: nat)
    ensures Listing([], room) == if room == 0 then ([], 0) else (Fitting(END_LINE, room), |END_LINE|)
  {
  }

  lemma FindIs(chain: seq<User>, name: cstring, k: nat)
    requires k <= |chain| && (k < |chain| ==> chain[k].name == name)
    requires forall j :: 0 <= j < k ==> chain[j].name != name
    ensures Find(chain, name) == k
  {
  }

  // ---- The table as a finite map ----

  /** Every entry is in its name's bucket, and names are unique. */
  predicate Sound(t: Chains) {
    && (forall b, i | 0 <= b < HASHMAP_SIZE && 0 <= i < |t[b]| :: Hash(t[b][i].name) == b && |t[b][i].name| <= MAX_LEN)
    && (forall b, i, j | 0 <= b < HASHMAP_SIZE && 0 <= i < j < |t[b]| :: t[b][i].name != t[b][j].name)
  }

  function Lookup(t: Chains, name: cstring): Option<cstring> {
    var chain := t[Hash(name)];
    var k := Find(chain, name);
    if k < |chain| then Some(chain[k].password) else None
  }

  /** `m` is `t` after the password for `name`, or its absence, has been set. */
  ghost predicate Differs(t: Chains, m: Chains, name: cstring, value: Option<cstring>) {
    forall n: cstring :: Lookup(m, n) == if n == name then value else Lookup(t, n)
  }

  lemma {:induction false} FindPushed(u: User, chain: seq<User>, name: cstring)
    ensures Find([u] + chain, name) == if u.name == name then 0 else 1 + Find(chain, name)
  {
  }

  /** Adding is insert-if-absent. */
  lemma {:induction false} AddIsInsert(t: Chains, name: cstring, password: cstring)
    requires Sound(t) && |name| <= 255 && |password| <= 255
    ensures var (m, ok) := Added(t, name, password);
      && Sound(m) && ok == Lookup(t, name).None?
      && (if ok then Differs(t, m, name, Some(password)) else m == t)
  {
    hide Hash;
    var (m, ok) := Added(t, name, password);
    if ok {
      var u := User(name, password);
      forall n: cstring
        ensures Lookup(m, n) == if n == name then Some(password) else Lookup(t, n)
      {
        FindPushed(u, t[Hash(name)], n);
      }
      AddKeepsSound(t, name, password);
    }
  }

  lemma {:induction false} AddKeepsSound(t: Chains, name: cstring, password: cstring)
    requires Sound(t) && |name| <= MAX_LEN && Lookup(t, name).None?
    ensures Sound(Added(t, name, password).0)
  {
  }

  lemma {:induction false} FindWithout(chain: seq<User>, k: nat, name: cstring)
    requires k < |chain| && forall i, j | 0 <= i < j < |chain| :: chain[i].name != chain[j].name
    ensures var shorter, f, g := chain[..k] + chain[k + 1..], Find(chain, name), Find(chain[..k] + chain[k + 1..], name);
      if name == chain[k].name then g == |shorter|
      else if f == |chain| then g == |shorter|
      else g < |shorter| && shorter[g] == chain[f]
  {
    var shorter, f := chain[..k] + chain[k + 1..], Find(chain, name);
    if name == chain[k].name || f == |chain| {
      FindIs(shorter, name, |shorter|);
    } else {
      FindIs(shorter, name, if f < k then f else f - 1);
    }
  }

  lemma {:induction false} RemoveKeepsSound(t: Chains, name: cstring)
    requires Sound(t) && Lookup(t, name).Some?
    ensures Sound(Removed(t, name).0)
  {
    hide Hash;
    var m, h := Removed(t, name).0, Hash(name);
    var k := Find(t[h], name);
    assert forall i :: 0 <= i < |m[h]| ==> m[h][i] == t[h][if i < k then i else i + 1];
  }

  /** Removing is deletion. */
  lemma {:induction false} RemoveIsDelete(t: Chains, name: cstring)
    requires Sound(t)
    ensures var (m, ok) := Removed(t, name);
      && Sound(m) && ok == Lookup(t, name).Some?
      && (if ok then Differs(t, m, name, None) else m == t)
  {
    hide Hash;
    var (m, ok) := Removed(t, name);
    if ok {
      RemoveKeepsSound(t, name);
      forall n: cstring
        ensures Lookup(m, n) == if n == name then None else Lookup(t, n)
      {
        FindWithout(t[Hash(name)], Find(t[Hash(name)], name), n);
      }
    }
  }

  /** Checking compares the stored password. */
  lemma {:induction false} CheckIsLookup(t: Chains, name: cstring, password: cstring)
    requires Sound(t)
    ensures Checked(t, name, password) <==> Lookup(t, name) == Some(password)
  {
  }

  /** Adding an absent user lets that user in if and only if name and password fit their entries. */
  lemma {:induction false} AddThenCheck(t: Chains, name: cstring, password: cstring)
    requires Sound(t) && Lookup(t, name).None?
    ensures Checked(Added(t, name, password).0, name, password) <==> |name| <= 255 && |password| <= 255
  {
  }

  /** Adding and removing undo each other. */
  lemma {:induction false} AddThenRemove(t: Chains, name: cstring, password: cstring)
    requires Sound(t) && |name| <= MAX_LEN && Lookup(t, name).None?
    ensures Removed(Added(t, name, password).0, name) == (t, true)
  {
    hide Hash, Sound, Find;
    var u, chain := User(name, Truncated(password)), t[Hash(name)];
    FindPushed(u, chain, name);
    assert ([u] + chain)[..0] + ([u] + chain)[1..] == chain;
    assert Added(t, name, password) == (t[Hash(name) := [u] + chain], true);
    assert t[Hash(name) := [u] + chain][Hash(name) := chain] == t;
  }

  // ---- Any sequence of changes ----

  datatype Change = AddUser(name: cstring, password: cstring) | RemoveUser(name: cstring)

  predicate Fits(c: Change) { |c.name| <= 255 && (c.AddUser? ==> |c.password| <= 255) }

  function Empty(): Chains { seq(HASHMAP_SIZE, _ => []) }

  function Changed(cs: seq<Change>): Chains {
    if cs == [] then Empty()
    else
      var t := Changed(cs[..|cs| - 1]);
      match cs[|cs| - 1]
      case AddUser(name, password) => Added(t, name, password).0
      case RemoveUser(name) => Removed(t, name).0
  }

  /** What a map with insert-if-absent and delete would hold for the name. */
  function Expected(cs: seq<Change>, name: cstring): Option<cstring> {
    if cs == [] then None
    else
      var v := Expected(cs[..|cs| - 1], name);
      match cs[|cs| - 1]
      case AddUser(n, password) => if n == name && v.None? then Some(password) else v
      case RemoveUser(n) => if n == name then None else v
  }

  /** Over any sequence of changes with names and passwords of up to 255 bytes the table is that map,
      and lets in exactly the users in it, with their passwords. */
  lemma {:induction false} TableIsMap(cs: seq<Change>)
    requires forall i | 0 <= i < |cs| :: Fits(cs[i])
    ensures Sound(Changed(cs))
    ensures forall n: cstring :: Lookup(Changed(cs), n) == Expected(cs, n)
    ensures forall n: cstring, p: cstring :: Checked(Changed(cs), n, p) <==> Expected(cs, n) == Some(p)
  {
    hide Added, Removed, Lookup, Checked, Hash;
    if cs == [] {
      EmptyIsEmpty();
    } else {
      var before, c := cs[..|cs| - 1], cs[|cs| - 1];
      TableIsMap(before);
      if c.AddUser? {
        AddIsInsert(Changed(before), c.name, c.password);
      } else {
        RemoveIsDelete(Changed(before), c.name);
      }
    }
    forall n: cstring, p: cstring
      ensures Checked(Changed(cs), n, p) <==> Lookup(Changed(cs), n) == Some(p)
    {
      CheckIsLookup(Changed(cs), n, p);
    }
  }

  lemma {:induction false} EmptyIsEmpty()
    ensures Sound(Empty()) && forall n: cstring :: Lookup(Empty(), n) == None
  {
  }

  // ---- What a listing contains ----

  function Lines(names: seq<cstring>): seq<byte> {
    if names == [] then [] else Line(names[0]) + Lines(names[1..])
  }

  /** A listing is complete, every line and END, if and only if there is room for all of it. */
  lemma {:induction false} ListingComplete(names: seq<cstring>, room: nat)
    ensures Listing(names, room) == (Lines(names) + END_LINE, |Lines(names)| + |END_LINE|)
       <==> |Lines(names)| + |END_LINE| < room
  {
    if names == [] {
      assert [] + END_LINE == END_LINE;
    } else if |Line(names[0])| < room {
      var line, rest := Line(names[0]), Lines(names[1..]) + END_LINE;
      ListingComplete(names[1..], room - |line|);
      var (text, written) := Listing(names[1..], room - |line|);
      assert Lines(names) + END_LINE == line + rest;
      assert (line + text)[|line|..] == text && (line + rest)[|line|..] == rest;
    }
  }

  function CountOf(names: seq<cstring>, name: cstring): nat { multiset(names)[name] }

  lemma {:induction false} ChainListsOnce(chain: seq<User>, name: cstring)
    requires forall i, j | 0 <= i < j < |chain| :: chain[i].name != chain[j].name
    ensures CountOf(NamesOf(chain), name) == if Find(chain, name) < |chain| then 1 else 0
  {
    if chain != [] {
      ChainListsOnce(chain[1..], name);
      var k := Find(chain[1..], name);
      assert k < |chain| - 1 ==> chain[k + 1].name == name;
    }
  }

  lemma {:induction false} AllListedOnce(t: Chains, b: nat, name: cstring)
    requires Sound(t) && b <= HASHMAP_SIZE
    ensures CountOf(AllNames(t[b..]), name) == if Hash(name) >= b && Lookup(t, name).Some? then 1 else 0
    decreases HASHMAP_SIZE - b
  {
    hide Hash;
    if b < HASHMAP_SIZE {
      AllListedOnce(t, b + 1, name);
      assert t[b..][1..] == t[b + 1..];
      ChainListsOnce(t[b], name);
      var k := Find(t[b], name);
      assert k < |t[b]| ==> Hash(t[b][k].name) == b;
    }
  }

  /** The names listed are the users of the table, each once. */
  lemma {:induction false} ListsEveryUserOnce(t: Chains, name: cstring)
    requires Sound(t)
    ensures CountOf(AllNames(t), name) == if Lookup(t, name).Some? then 1 else 0
  {
    AllListedOnce(t, 0, name);
    assert t[0..] == t;
  }

  // ---- The order of a listing ----

  lemma {:induction false} NamesInOrder(a: seq<User>, b: seq<User>)
    ensures NamesOf(a + b) == NamesOf(a) + NamesOf(b)
  {
    if a == [] {
      assert [] + b == b;
    } else {
      assert (a + b)[1..] == a[1..] + b;
      NamesInOrder(a[1..], b);
    }
  }

  lemma {:induction false} BucketsInOrder(a: seq<seq<User>>, b: seq<seq<User>>)
    ensures AllNames(a + b) == AllNames(a) + AllNames(b)
  {
    if a == [] {
      assert [] + b == b;
    } else {
      assert (a + b)[1..] == a[1..] + b;
      BucketsInOrder(a[1..], b);
    }
  }

  lemma {:induction false} AroundBucket(t: seq<seq<User>>, h: nat)
    requires h < |t|
    ensures AllNames(t) == AllNames(t[..h]) + NamesOf(t[h]) + AllNames(t[h + 1..])
  {
    assert t == t[..h] + t[h..] && t[h..][1..] == t[h + 1..];
    BucketsInOrder(t[..h], t[h..]);
  }

  /** A new name is listed after the names in lower buckets and before all others of its own. */
  lemma {:induction false} AddedIsListed(t: Chains, name: cstring, password: cstring)
    requires Sound(t) && |name| <= 255 && Lookup(t, name).None?
    ensures AllNames(Added(t, name, password).0) == AllNames(t[..Hash(name)]) + [name] + AllNames(t[Hash(name)..])
  {
    var h, u := Hash(name), User(name, Truncated(password));
    var m := Added(t, name, password).0;
    assert m == t[h := [u] + t[h]] && m[..h] == t[..h] && m[h + 1..] == t[h + 1..] && t[h..][1..] == t[h + 1..];
    hide Hash, Added;
    AroundBucket(m, h);
    NamesInOrder([u], t[h]);
    assert NamesOf([u]) == [name];
  }

  /** One occurrence of the name is gone. */
  predicate IsWithout(names: seq<cstring>, fewer: seq<cstring>, name: cstring) {
    exists k :: 0 <= k < |names| && names[k] == name && fewer == names[..k] + names[k + 1..]
  }

  lemma {:induction false} MiddleGone(before: seq<cstring>, name: cstring, after: seq<cstring>)
    ensures IsWithout(before + [name] + after, before + after, name)
  {
    var all := before + [name] + after;
    assert all[|before|] == name && all[..|before|] == before && all[|before| + 1..] == after;
  }

  /** The others are listed in the order they were. */
  lemma {:induction false} RemovedIsListed(t: Chains, name: cstring)
    requires Sound(t) && Lookup(t, name).Some?
    ensures IsWithout(AllNames(t), AllNames(Removed(t, name).0), name)
  {
    var h, chain := Hash(name), t[Hash(name)];
    var i := Find(chain, name);
    RemovedInBucket(t, h, i, Removed(t, name).0);
  }

  lemma {:induction false} RemovedInBucket(t: seq<seq<User>>, h: nat, i: nat, m: seq<seq<User>>)
    requires h < |t| && i < |t[h]| && m == t[h := t[h][..i] + t[h][i + 1..]]
    ensures IsWithout(AllNames(t), AllNames(m), t[h][i].name)
  {
    assert m[..h] == t[..h] && m[h + 1..] == t[h + 1..];
    hide IsWithout, AllNames, NamesOf;
    AroundBucket(t, h);
    AroundBucket(m, h);
    AroundUser(t[h], i);
    NamesInOrder(t[h][..i], t[h][i + 1..]);
    MiddleGoneWithin(AllNames(t[..h]), NamesOf(t[h][..i]), t[h][i].name, NamesOf(t[h][i + 1..]), AllNames(t[h + 1..]));
  }

  lemma {:induction false} AroundUser(chain: seq<User>, i: nat)
    requires i < |chain|
    ensures NamesOf(chain) == NamesOf(chain[..i]) + [chain[i].name] + NamesOf(chain[i + 1..])
  {
    NamesInOrder(chain[..i], chain[i..]);
    assert chain == chain[..i] + chain[i..] && chain[i..][1..] == chain[i + 1..];
  }

  lemma {:induction false} MiddleGoneWithin(a: seq<cstring>, b: seq<cstring>, name: cstring, c: seq<cstring>, d: seq<cstring>)
    ensures IsWithout(a + (b + [name] + c) + d, a + (b + c) + d, name)
  {
    hide IsWithout;
    MiddleGone(a + b, name, c + d);
    assert a + (b + [name] + c) + d == a + b + [name] + (c + d) && a + (b + c) + d == a + b + (c + d);
  }

  /** The text for any room: as much as leaves room for a NUL of every line and END. What is reported are the
      whole lines, and END if it is reached, cut short or not. */
  lemma {:induction false} ListingExactly(names: seq<cstring>, room: nat, k: nat)
    requires k <= |names| && |Lines(names[..k])| < room && (k < |names| ==> |Lines(names[..k + 1])| >= room)
    ensures var whole, least := Lines(names) + [69, 78, 68, 10], |Lines(names[..k])|;
      Listing(names, room)
        == (if |whole| < room then whole else whole[..room - 1], if k == |names| then least + 4 else least)
  {
    if k == 0 {
      if names == [] {
        assert [] + END_LINE == END_LINE;
      } else {
        assert names[..1] == [names[0]] && [names[0]][1..] == [] && Lines([names[0]]) == Line(names[0]) + [];
        FirstIsCut(Line(names[0]), Lines(names[1..]), room);
      }
    } else {
      var line := Line(names[0]);
      assert names[..k][0] == names[0] && names[..k][1..] == names[1..][..k - 1];
      assert k < |names| ==> names[..k + 1][0] == names[0] && names[..k + 1][1..] == names[1..][..k];
      hide Listing, Line;
      ListingExactly(names[1..], room - |line|, k - 1);
      ListingStep(names[0], names[1..], room);
      assert [names[0]] + names[1..] == names;
      LineInFront(line, Lines(names[1..]), room);
    }
  }

  lemma {:induction false} FirstIsCut(line: seq<byte>, rest: seq<byte>, room: nat)
    requires 0 < room <= |line|
    ensures (line + rest + END_LINE)[..room - 1] == line[..room - 1] && |line + rest + END_LINE| >= room
  {
  }

  lemma {:induction false} LineInFront(line: seq<byte>, rest: seq<byte>, room: nat)
    requires |line| < room
    ensures line + rest + END_LINE == line + (rest + END_LINE)
    ensures |line + rest + END_LINE| >= room ==> (line + rest + END_LINE)[..room - 1] == line + (rest + END_LINE)[..room - |line| - 1]
  {
    assert line + rest + END_LINE == line + (rest + END_LINE);
  }

  /** Without any room there is nothing. */
  lemma {:induction false} NoRoom(names: seq<cstring>)
    ensures Listing(names, 0) == ([], 0)
  {
  }
}
