/**
 Bridges and bonds over physical interfaces. The kernel's table gives every link at most one master; an update
 computes what to add and what to remove from the difference of two lists and guards the number that remains.
 */
module Links {
  import opened Records
  import opened Store
  import opened Text

  datatype Kind = Device | Bridge | Bond | OtherKind

  datatype Link = Link(kind: Kind, master: Option<string>, up: bool)

  type Table = map<string, Link>

  predicate Owner(kind: Kind) {
    kind.Bridge? || kind.Bond?
  }

  ghost function Members(t: Table, m: string): set<string> {
    set n | n in t && t[n].master == Some(m)
  }

  /** Members of bridges and bonds are physical, and every bridge and bond has at least two of them. */
  ghost predicate TopologyOk(t: Table) {
    && "" !in t
    && (forall n | n in t && t[n].master.Some? :: t[n].master.value in t)
    && (forall n | n in t && t[n].master.Some? && Owner(t[t[n].master.value].kind) :: t[n].kind.Device?)
    && (forall n | n in t && t[n].kind.Device? :: Members(t, n) == {})
    && (forall m | m in t && Owner(t[m].kind) :: |Members(t, m)| >= 2)
  }

  // ---------------------------------------------------------------- lists

  /** The items of xs that are not in ys, in order and with repetitions. */
  function Without(xs: seq<string>, ys: seq<string>): seq<string> {
    if xs == [] then []
    else Without(xs[..|xs| - 1], ys) + if xs[|xs| - 1] in ys then [] else [xs[|xs| - 1]]
  }

  ghost function ToSet(xs: seq<string>): set<string> {
    set x | x in xs
  }

  predicate Distinct(xs: seq<string>) {
    forall i, j | 0 <= i < j < |xs| :: xs[i] != xs[j]
  }

  lemma {:induction false} WithoutItems(xs: seq<string>, ys: seq<string>, x: string)
    ensures x in Without(xs, ys) <==> x in xs && x !in ys
  {
    if xs != [] {
      var front, last := xs[..|xs| - 1], xs[|xs| - 1];
      assert xs == front + [last];
      WithoutItems(front, ys, x);
    }
  }

  method FetchAddRemoveFromList(orig: seq<string>, req: seq<string>) returns (toAdd: seq<string>, toRemove: seq<string>)
    ensures toAdd == Without(req, orig) && toRemove == Without(orig, req)
  {
    var origMap: set<string>, reqMap: set<string> := {}, {};
    for i := 0 to |orig|
      invariant forall x :: x in origMap <==> x in orig[..i]
    {
      origMap := origMap + {orig[i]};
    }
    for i := 0 to |req|
      invariant forall x :: x in reqMap <==> x in req[..i]
    {
      reqMap := reqMap + {req[i]};
    }
    assert orig[..|orig|] == orig && req[..|req|] == req;
    toAdd, toRemove := [], [];
    for i := 0 to |req|
      invariant toAdd == Without(req[..i], orig)
    {
      assert req[..i + 1][..i] == req[..i];
      if req[i] !in origMap {
        toAdd := toAdd + [req[i]];
      }
    }
    for i := 0 to |orig|
      invariant toRemove == Without(orig[..i], req)
    {
      assert orig[..i + 1][..i] == orig[..i];
      if orig[i] !in reqMap {
        toRemove := toRemove + [orig[i]];
      }
    }
  }

  /** Finds a repeated name whenever there is one. */
  method HasCommon(arr: seq<string>) returns (found: bool, name: string)
    ensures found <==> !Distinct(arr)
    ensures found ==> exists i, j :: 0 <= i < j < |arr| && arr[i] == arr[j] == name
  {
    var seen: set<string> := {};
    for k := 0 to |arr|
      invariant forall x :: x in seen <==> x in arr[..k]
      invariant forall i, j | 0 <= i < j < k :: arr[i] != arr[j]
    {
      if arr[k] in seen {
        var i :| 0 <= i < k && arr[i] == arr[k];
        return true, arr[k];
      }
      seen := seen + {arr[k]};
    }
    return false, "";
  }

  /** Finds a non-empty name of both lists whenever there is one. */
  method FindCommonMemberInterfaces(a: seq<string>, b: seq<string>) returns (name: string, found: bool)
    ensures found <==> exists x :: x in a && x in b && x != ""
    ensures found ==> name in a && name in b && name != ""
  {
    var elements: set<string> := {};
    for k := 0 to |a|
      invariant forall x :: x in elements <==> x in a[..k] && x != ""
    {
      if a[k] != "" {
        elements := elements + {a[k]};
      }
    }
    assert a[..|a|] == a;
    for k := 0 to |b|
      invariant forall x | x in b[..k] :: x == "" || x !in elements
    {
      if b[k] != "" && b[k] in elements {
        return b[k], true;
      }
    }
    return "", false;
  }

  // ---------------------------------------------------------------- the guard's arithmetic

  lemma {:induction false} DistinctSize(xs: seq<string>)
    ensures |ToSet(xs)| <= |xs|
    ensures |ToSet(xs)| == |xs| <==> Distinct(xs)
  {
    if xs == [] {
      assert ToSet(xs) == {};
    } else {
      var front, last := xs[..|xs| - 1], xs[|xs| - 1];
      DistinctSize(front);
      assert xs == front + [last];
      if last in front {
        assert ToSet(xs) == ToSet(front);
        var i :| 0 <= i < |front| && front[i] == last;
        assert xs[i] == xs[|xs| - 1];
      } else {
        assert ToSet(xs) == ToSet(front) + {last};
        assert Distinct(xs) <==> Distinct(front) by {
          assert forall i | 0 <= i < |front| :: front[i] == xs[i] && front[i] in front;
        }
      }
    }
  }

  lemma {:induction false} WithoutDistinct(xs: seq<string>, ys: seq<string>)
    requires Distinct(xs)
    ensures Distinct(Without(xs, ys))
  {
    if xs != [] {
      var front, last := xs[..|xs| - 1], xs[|xs| - 1];
      WithoutDistinct(front, ys);
      WithoutItems(front, ys, last);
      assert last !in front;
    }
  }

  lemma UnionSize(whole: set<string>, a: set<string>, b: set<string>)
    requires (forall x :: x in whole <==> x in a || x in b) && forall x :: !(x in a && x in b)
    ensures |whole| == |a| + |b|
  {
    assert whole == a + b;
  }

  /** The names a request asks for. */
  ghost function Requested(req: seq<string>): set<string> {
    ToSet(req) - {""}
  }

  /**
   The guard computes members + added - removed. That is the number of requested members if and only if the
   requested names that are not members yet are distinct and none of them is empty; otherwise it is larger.
   */
  lemma GuardExactly(orig: seq<string>, req: seq<string>)
    requires Distinct(orig) && "" !in orig
    ensures var joining := Without(req, orig);
            && |orig| + |joining| - |Without(orig, req)| >= |Requested(req)|
            && (|orig| + |joining| - |Without(orig, req)| == |Requested(req)| <==> Distinct(joining) && "" !in joining)
  {
    var joining, leaving := Without(req, orig), Without(orig, req);
    var kept := ToSet(orig) * ToSet(req);
    forall x
      ensures x in joining <==> x in req && x !in orig
      ensures x in leaving <==> x in orig && x !in req
    {
      WithoutItems(req, orig, x);
      WithoutItems(orig, req, x);
    }
    WithoutDistinct(orig, req);
    DistinctSize(orig);
    DistinctSize(leaving);
    DistinctSize(joining);
    UnionSize(ToSet(orig), kept, ToSet(leaving));
    UnionSize(Requested(req), kept, ToSet(joining) - {""});
    assert |ToSet(joining) - {""}| == |ToSet(joining)| - if "" in joining then 1 else 0;
  }

  // ---------------------------------------------------------------- what the operations do to the table

  function Enslaved(t: Table, names: set<string>, m: string): Table {
    map n | n in t :: if n in names then t[n].(master := Some(m)) else t[n]
  }

  function Freed(t: Table, names: set<string>): Table {
    map n | n in t :: if n in names then t[n].(master := None) else t[n]
  }

  /** Deleting a link releases its members. */
  function Deleted(t: Table, m: string): Table {
    map n | n in t && n != m :: if t[n].master == Some(m) then t[n].(master := None) else t[n]
  }

  /** A link that may join: physical, without a bridge or bond above it, and down if it is to join a bond. */
  predicate Joinable(t: Table, kind: Kind, n: string) {
    && n in t && t[n].kind.Device? && (kind.Bond? ==> !t[n].up)
    && (t[n].master.Some? && t[n].master.value in t ==> !Owner(t[t[n].master.value].kind))
  }

  predicate CanCreate(t: Table, kind: Kind, name: string, members: seq<string>) {
    && name != "" && name !in t
    && |members| >= 2 && Distinct(members)
    && forall n | n in members :: Joinable(t, kind, n)
  }

  ghost function Created(t: Table, kind: Kind, name: string, members: seq<string>): Table {
    Enslaved(t[name := Link(kind, None, false)], ToSet(members), name)
  }

  /** A bridge request may hold empty names, which are skipped; a bond request may not. */
  predicate CanUpdate(t: Table, kind: Kind, name: string, orig: seq<string>, req: seq<string>) {
    && name in t && t[name].kind == kind
    && (forall n | n in Without(req, orig) && (kind.Bond? || n != "") :: Joinable(t, kind, n))
    && |orig| + |Without(req, orig)| - |Without(orig, req)| >= 2
  }

  ghost function Updated(t: Table, name: string, orig: seq<string>, req: seq<string>): Table {
    Freed(Enslaved(t, ToSet(Without(req, orig)) - {""}, name), ToSet(Without(orig, req)))
  }

  ghost predicate IsMemberList(t: Table, name: string, orig: seq<string>) {
    Distinct(orig) && ToSet(orig) == Members(t, name)
  }

  lemma UpdatedMembers(t: Table, kind: Kind, name: string, orig: seq<string>, req: seq<string>, m: string)
    requires TopologyOk(t) && Owner(kind) && IsMemberList(t, name, orig) && CanUpdate(t, kind, name, orig, req)
    ensures Members(Updated(t, name, orig, req), name) == Requested(req)
    ensures m != name && m in t && Owner(t[m].kind) ==> Members(Updated(t, name, orig, req), m) == Members(t, m)
  {
    var t' := Updated(t, name, orig, req);
    forall x
      ensures x in Without(req, orig) <==> x in req && x !in orig
      ensures x in Without(orig, req) <==> x in orig && x !in req
    {
      WithoutItems(req, orig, x);
      WithoutItems(orig, req, x);
    }
    assert forall x :: x in orig <==> x in Members(t, name);
    forall n ensures n in Members(t', name) <==> n in Requested(req) {
      if n in Requested(req) && n !in orig {
        assert Joinable(t, kind, n);
      }
    }
    if m != name && m in t && Owner(t[m].kind) {
      forall n ensures n in Members(t', m) <==> n in Members(t, m) {
        if n in Without(req, orig) && n != "" {
          assert Joinable(t, kind, n);
        }
      }
    }
  }

  /** Only the members of the updated link, old and new, are touched; the links themselves stay. */
  lemma UpdatedFrame(t: Table, kind: Kind, name: string, orig: seq<string>, req: seq<string>, n: string)
    requires TopologyOk(t) && Owner(kind) && IsMemberList(t, name, orig) && CanUpdate(t, kind, name, orig, req)
    ensures var t' := Updated(t, name, orig, req);
            && t'.Keys == t.Keys
            && (n in t ==> t'[n].kind == t[n].kind)
            && (n in t && t'[n].master != t[n].master ==>
                  t[n].kind.Device? && (t'[n].master == Some(name) || t[n].master == Some(name)))
  {
    WithoutItems(req, orig, n);
    WithoutItems(orig, req, n);
    if n in Without(req, orig) && n != "" {
      assert Joinable(t, kind, n);
    }
    assert n in orig ==> n in Members(t, name);
  }

  lemma DeviceStaysLeaf(t: Table, kind: Kind, name: string, orig: seq<string>, req: seq<string>, m: string)
    requires TopologyOk(t) && Owner(kind) && IsMemberList(t, name, orig) && CanUpdate(t, kind, name, orig, req)
    requires m in t && t[m].kind.Device?
    ensures Members(Updated(t, name, orig, req), m) == {}
  {
    forall n ensures n !in Members(Updated(t, name, orig, req), m) {
      UpdatedFrame(t, kind, name, orig, req, n);
      assert n !in Members(t, m);
    }
  }

  /** What an update leaves of a single link. */
  lemma UpdatedLink(t: Table, kind: Kind, name: string, orig: seq<string>, req: seq<string>, n: string)
    requires TopologyOk(t) && Owner(kind) && IsMemberList(t, name, orig) && CanUpdate(t, kind, name, orig, req)
    requires n in t
    ensures var t' := Updated(t, name, orig, req);
            && n in t' && t'[n].kind == t[n].kind
            && (t'[n].master.Some? ==> t'[n].master.value in t)
            && (t'[n].master.Some? && Owner(t[t'[n].master.value].kind) ==> t[n].kind.Device?)
            && (t[n].kind.Device? ==> Members(t', n) == {})
            && (Owner(t[n].kind) ==> |Members(t', n)| >= 2 || n == name)
  {
    UpdatedFrame(t, kind, name, orig, req, n);
    UpdatedMembers(t, kind, name, orig, req, n);
    if t[n].kind.Device? {
      DeviceStaysLeaf(t, kind, name, orig, req, n);
    }
  }

  /** An accepted update keeps the topology exactly when at least two different members were requested. */
  lemma UpdateKeepsExactly(t: Table, kind: Kind, name: string, orig: seq<string>, req: seq<string>)
    requires TopologyOk(t) && Owner(kind) && IsMemberList(t, name, orig) && CanUpdate(t, kind, name, orig, req)
    ensures TopologyOk(Updated(t, name, orig, req)) <==> |Requested(req)| >= 2
    ensures Distinct(Without(req, orig)) && "" !in Without(req, orig) ==> |Requested(req)| >= 2
  {
    UpdatedMembers(t, kind, name, orig, req, name);
    assert "" !in orig by { assert forall x :: x in orig <==> x in Members(t, name); }
    GuardExactly(orig, req);
    forall n | n in t
      ensures var t' := Updated(t, name, orig, req);
              && n in t' && t'[n].kind == t[n].kind
              && (t'[n].master.Some? ==> t'[n].master.value in t)
              && (t'[n].master.Some? && Owner(t[t'[n].master.value].kind) ==> t[n].kind.Device?)
              && (t[n].kind.Device? ==> Members(t', n) == {})
              && (Owner(t[n].kind) ==> |Members(t', n)| >= 2 || n == name)
    {
      UpdatedLink(t, kind, name, orig, req, n);
    }
  }

  lemma CreatedMembers(t: Table, kind: Kind, name: string, members: seq<string>, m: string)
    requires TopologyOk(t) && Owner(kind) && CanCreate(t, kind, name, members) && m in t
    ensures Owner(t[m].kind) ==> Members(Created(t, kind, name, members), m) == Members(t, m)
    ensures t[m].kind.Device? ==> Members(Created(t, kind, name, members), m) == {}
  {
    var t' := Created(t, kind, name, members);
    forall n
      ensures n in Members(t', m) ==> n in Members(t, m)
      ensures n in Members(t, m) && Owner(t[m].kind) ==> n in Members(t', m)
    {
      if n in members {
        assert Joinable(t, kind, n);
      }
    }
  }

  /** A created link has exactly the requested members, takes none from another, and the topology stays sound. */
  lemma CreateKeeps(t: Table, kind: Kind, name: string, members: seq<string>)
    requires TopologyOk(t) && Owner(kind) && CanCreate(t, kind, name, members)
    ensures Members(Created(t, kind, name, members), name) == ToSet(members)
    ensures TopologyOk(Created(t, kind, name, members))
  {
    var t' := Created(t, kind, name, members);
    forall n ensures n in Members(t', name) <==> n in ToSet(members) {
      if n in members {
        assert Joinable(t, kind, n);
      }
    }
    assert Members(t', name) == ToSet(members);
    DistinctSize(members);
    forall n | n in members ensures Joinable(t, kind, n) {}
    forall m | m in t
      ensures Owner(t[m].kind) ==> Members(t', m) == Members(t, m)
      ensures t[m].kind.Device? ==> Members(t', m) == {}
    {
      CreatedMembers(t, kind, name, members, m);
    }
    assert |Members(t', name)| >= 2;
    assert forall m | m in t' && m != name :: m in t && t'[m].kind == t[m].kind;
  }

  lemma DeletedMembers(t: Table, name: string, m: string)
    requires TopologyOk(t) && name in t && Owner(t[name].kind) && m in t && m != name
    ensures Members(Deleted(t, name), m) == Members(t, m) - {name}
    ensures Owner(t[m].kind) ==> Members(Deleted(t, name), m) == Members(t, m)
  {
    forall n ensures n in Members(Deleted(t, name), m) <==> n in Members(t, m) - {name} {}
    if Owner(t[m].kind) {
      assert name !in Members(t, m);
    }
  }

  /** A deleted bridge or bond releases its members and nobody else's. */
  lemma DeleteKeeps(t: Table, name: string)
    requires TopologyOk(t) && name in t && Owner(t[name].kind)
    ensures TopologyOk(Deleted(t, name)) && Members(Deleted(t, name), name) == {}
  {
    var t' := Deleted(t, name);
    forall m | m in t'
      ensures t'[m].kind.Device? ==> Members(t', m) == {}
      ensures Owner(t'[m].kind) ==> |Members(t', m)| >= 2
    {
      DeletedMembers(t, name, m);
    }
  }

  // ---------------------------------------------------------------- every run of requests

  datatype Request =
    | Create(kind: Kind, name: string, members: seq<string>)
    | Update(kind: Kind, name: string, orig: seq<string>, members: seq<string>)
    | Delete(kind: Kind, name: string)

  /** The request is accepted; for an update `orig` is the member list that the program read. */
  ghost predicate Accepted(t: Table, r: Request) {
    match r
    case Create(kind, name, members) => Owner(kind) && CanCreate(t, kind, name, members)
    case Update(kind, name, orig, members) =>
      Owner(kind) && IsMemberList(t, name, orig) && CanUpdate(t, kind, name, orig, members)
    case Delete(kind, name) => Owner(kind) && name in t && t[name].kind == kind
  }

  ghost function Handle(t: Table, r: Request): Table
    requires Accepted(t, r)
  {
    match r
    case Create(kind, name, members) => Created(t, kind, name, members)
    case Update(_, name, orig, members) => Updated(t, name, orig, members)
    case Delete(_, name) => Deleted(t, name)
  }

  ghost predicate CanHandle(t: Table, rs: seq<Request>)
    decreases |rs|
  {
    rs != [] ==> Accepted(t, rs[0]) && CanHandle(Handle(t, rs[0]), rs[1..])
  }

  /** The request names two different members, if it is an update. */
  ghost predicate AsksForTwo(r: Request) {
    r.Update? ==> |Requested(r.members)| >= 2
  }

  /** Every table along the run of accepted requests is sound. */
  ghost predicate AlwaysOk(t: Table, rs: seq<Request>)
    requires CanHandle(t, rs)
    decreases |rs|
  {
    TopologyOk(t) && (rs != [] ==> AlwaysOk(Handle(t, rs[0]), rs[1..]))
  }

  lemma HandleExactly(t: Table, r: Request)
    requires TopologyOk(t) && Accepted(t, r)
    ensures TopologyOk(Handle(t, r)) <==> AsksForTwo(r)
  {
    match r
    case Create(kind, name, members) => CreateKeeps(t, kind, name, members);
    case Update(kind, name, orig, members) => UpdateKeepsExactly(t, kind, name, orig, members);
    case Delete(_, name) => DeleteKeeps(t, name);
  }

  /** An accepted request takes no member from a bridge or bond it does not name. */
  lemma OthersKeepTheirs(t: Table, r: Request, m: string)
    requires TopologyOk(t) && Accepted(t, r) && m in t && Owner(t[m].kind) && m != r.name
    ensures m in Handle(t, r) && Members(Handle(t, r), m) == Members(t, m)
  {
    match r
    case Create(kind, name, members) => CreatedMembers(t, kind, name, members, m);
    case Update(kind, name, orig, members) => UpdatedMembers(t, kind, name, orig, members, m);
    case Delete(_, name) => DeletedMembers(t, name, m);
  }

  /**
   Through any sequence of accepted requests every bridge and bond has at least two members, all physical, if and
   only if every update asks for two different members.
   */
  lemma {:induction false} TopologyTheorem(t: Table, rs: seq<Request>)
    requires TopologyOk(t) && CanHandle(t, rs)
    ensures AlwaysOk(t, rs) <==> forall r | r in rs :: AsksForTwo(r)
    decreases |rs|
  {
    if rs != [] {
      HandleExactly(t, rs[0]);
      assert rs == [rs[0]] + rs[1..];
      if AsksForTwo(rs[0]) {
        TopologyTheorem(Handle(t, rs[0]), rs[1..]);
      }
    }
  }

  lemma WithoutPair(x: string, y: string, ys: seq<string>)
    requires x !in ys && y !in ys
    ensures Without([x, y], ys) == [x, y]
  {
    assert [x, y][..1] == [x] && [x][..0] == [];
    assert Without([x], ys) == [x];
  }

  lemma RepeatedNameAccepted(t: Table, name: string, a: string, b: string, c: string)
    requires name in t && t[name].kind.Bridge? && Members(t, name) == {a, b}
    requires a != b && c !in {a, b} && Joinable(t, Bridge, c)
    ensures Accepted(t, Update(Bridge, name, [a, b], [c, c]))
  {
    WithoutPair(c, c, [a, b]);
    WithoutPair(a, b, [c, c]);
    assert ToSet([a, b]) == {a, b};
  }

  /**
   Without proper names the guard can be passed with one interface: a bridge of two is reduced to a single
   member by asking for a third interface twice.
   */
  lemma RepeatedNamePasses(t: Table, name: string, a: string, b: string, c: string)
    requires TopologyOk(t) && name in t && t[name].kind.Bridge? && Members(t, name) == {a, b}
    requires a != b && c !in {a, b} && Joinable(t, Bridge, c)
    ensures Accepted(t, Update(Bridge, name, [a, b], [c, c]))
    ensures Members(Handle(t, Update(Bridge, name, [a, b], [c, c])), name) == {c}
  {
    RepeatedNameAccepted(t, name, a, b, c);
    UpdatedMembers(t, Bridge, name, [a, b], [c, c], name);
    assert Requested([c, c]) == {c};
  }

  // ---------------------------------------------------------------- the programs

  datatype Reply = Done | Refused | KernelError

  /** The kernel's link table; `SetMaster` may fail, the other calls here do what they are asked. */
  class Kernel {
    var links: Table

    constructor (links: Table)
      ensures this.links == links
    {
      this.links := links;
    }

    method LinkAdd(name: string, kind: Kind)
      requires name !in links
      modifies this
      ensures links == old(links)[name := Link(kind, None, false)]
    {
      links := links[name := Link(kind, None, false)];
    }

    method SetMaster(name: string, master: string, failing: bool) returns (ok: bool)
      requires name in links
      modifies this
      ensures ok == !failing
      ensures links == if failing then old(links) else Enslaved(old(links), {name}, master)
    {
      if !failing {
        links := links[name := links[name].(master := Some(master))];
      }
      ok := !failing;
    }

    method SetNoMaster(name: string)
      requires name in links
      modifies this
      ensures links == Freed(old(links), {name})
    {
      links := links[name := links[name].(master := None)];
    }

    method LinkDel(name: string)
      modifies this
      ensures links == Deleted(old(links), name)
    {
      links := Deleted(links, name);
    }

    /** The members of a bridge or bond in the order of the kernel's list. */
    method MemberList(name: string) returns (members: seq<string>)
      ensures IsMemberList(links, name, members)
    {
      members := [];
      var left := links.Keys;
      while left != {}
        invariant left <= links.Keys
        invariant forall n | n in members :: n in links && n !in left && links[n].master == Some(name)
        invariant forall n | n in links && n !in left && links[n].master == Some(name) :: n in members
        invariant Distinct(members)
        decreases |left|
      {
        var n := AnyOf(left);
        left := left - {n};
        if links[n].master == Some(name) {
          members := members + [n];
        }
      }
      assert forall n :: n in ToSet(members) <==> n in Members(links, name);
    }

    /** Puts the links under the master one by one, up to the first failing call; empty names are skipped. */
    method SetMasters(names: seq<string>, master: string, failAt: nat) returns (ok: bool)
      requires forall n | n in names && n != "" :: n in links
      modifies this
      ensures ok <==> !exists i :: 0 <= i < |names| && i == failAt && names[i] != ""
      ensures links == Enslaved(old(links), ToSet(if ok then names else names[..failAt]) - {""}, master)
    {
      for i := 0 to |names|
        invariant failAt >= i || (failAt < i && names[failAt] == "")
        invariant links == Enslaved(old(links), ToSet(names[..i]) - {""}, master)
      {
        assert names[..i + 1] == names[..i] + [names[i]];
        if names[i] != "" {
          assert names[i] in names;
          var done := SetMaster(names[i], master, i == failAt);
          if !done {
            return false;
          }
        }
      }
      assert names[..|names|] == names;
      return true;
    }

    method SetNoMasters(names: seq<string>)
      requires forall n | n in names :: n in links
      modifies this
      ensures links == Freed(old(links), ToSet(names))
    {
      for i := 0 to |names|
        invariant links == Freed(old(links), ToSet(names[..i]))
      {
        assert names[..i + 1] == names[..i] + [names[i]];
        assert names[i] in names;
        SetNoMaster(names[i]);
      }
      assert names[..|names|] == names;
    }
  }

  method AllJoinable(kernel: Kernel, kind: Kind, names: seq<string>, skipEmpty: bool) returns (ok: bool)
    ensures ok <==> forall n | n in names && !(skipEmpty && n == "") :: Joinable(kernel.links, kind, n)
  {
    for i := 0 to |names|
      invariant forall n | n in names[..i] && !(skipEmpty && n == "") :: Joinable(kernel.links, kind, n)
    {
      if !(skipEmpty && names[i] == "") && !Joinable(kernel.links, kind, names[i]) {
        return false;
      }
    }
    assert names[..|names|] == names;
    return true;
  }

  /**
   Creating a bridge or bond. When the kernel refuses a member half way, a bond is taken back and its links are
   released, while a bridge stays with the members it has so far.
   */
  method CreateLink(kernel: Kernel, kind: Kind, name: string, members: seq<string>, failAt: nat) returns (reply: Reply)
    requires Owner(kind) && "" !in kernel.links
    modifies kernel
    ensures reply.Refused? <==> !CanCreate(old(kernel.links), kind, name, members)
    ensures var t := old(kernel.links);
            reply.Refused? <==>
            || name == "" || name in t || |members| < 2
            || (exists i, j :: 0 <= i < j < |members| && members[i] == members[j])
            || exists n :: n in members && (
                 || n !in t || t[n].kind != Device || (kind.Bond? && t[n].up)
                 || (t[n].master.Some? && t[n].master.value in t && t[t[n].master.value].kind in {Bridge, Bond}))
    ensures reply.Done? <==> CanCreate(old(kernel.links), kind, name, members) && failAt >= |members|
    ensures reply.Refused? ==> kernel.links == old(kernel.links)
    ensures reply.Done? ==> kernel.links == Created(old(kernel.links), kind, name, members)
    ensures reply.Done? ==>
              && kernel.links.Keys == old(kernel.links).Keys + {name} && kernel.links[name] == Link(kind, None, false)
              && forall n | n in old(kernel.links) ::
                   kernel.links[n] == if n in members then old(kernel.links)[n].(master := Some(name))
                                      else old(kernel.links)[n]
    ensures reply.KernelError? && kind.Bridge? ==>
              kernel.links == Created(old(kernel.links), kind, name, members[..failAt])
    ensures reply.KernelError? && kind.Bond? ==>
              kernel.links == Deleted(Created(old(kernel.links), kind, name, members[..failAt]), name)
  {
    if name == "" || name in kernel.links || |members| < 2 {
      return Refused;
    }
    var repeated, which := HasCommon(members);
    if repeated {
      return Refused;
    }
    var ok := AllJoinable(kernel, kind, members, false);
    if !ok {
      return Refused;
    }
    assert forall n | n in members :: Joinable(kernel.links, kind, n);
    assert "" !in members;
    kernel.LinkAdd(name, kind);
    ok := kernel.SetMasters(members, name, failAt);
    if failAt < |members| {
      assert members[failAt] in members;
    }
    if ok {
      assert ToSet(members) - {""} == ToSet(members);
      return Done;
    }
    assert ToSet(members[..failAt]) - {""} == ToSet(members[..failAt]);
    if kind.Bond? {
      kernel.LinkDel(name);
    }
    return KernelError;
  }

  /** Taking a bond back leaves the table as it was, if its links had no master of any kind before. */
  lemma RollbackRestores(t: Table, name: string, members: seq<string>)
    requires TopologyOk(t) && name !in t && forall n | n in members :: n in t && t[n].master.None?
    ensures Deleted(Created(t, Bond, name, members), name) == t
  {
    var t' := Deleted(Created(t, Bond, name, members), name);
    forall n ensures n in t'.Keys <==> n in t.Keys {}
    assert t'.Keys == t.Keys;
    forall n | n in t.Keys ensures t'[n] == t[n] {
      assert t[n].master != Some(name);
    }
  }

  /** Updating the member list, all kernel calls succeeding. */
  method UpdateLink(kernel: Kernel, kind: Kind, name: string, members: seq<string>)
    returns (reply: Reply, ghost orig: seq<string>)
    requires Owner(kind) && TopologyOk(kernel.links)
    modifies kernel
    ensures IsMemberList(old(kernel.links), name, orig)
    ensures reply.Done? <==> CanUpdate(old(kernel.links), kind, name, orig, members)
    ensures reply.Done? <==>
              && name in old(kernel.links) && old(kernel.links)[name].kind == kind
              && (forall n | n in members && n !in orig ::
                    (kind.Bridge? && n == "") || Joinable(old(kernel.links), kind, n))
              && |orig| + |Without(members, orig)| - |Without(orig, members)| >= 2
    ensures kernel.links == if reply.Done? then Updated(old(kernel.links), name, orig, members) else old(kernel.links)
    ensures reply.Done? ==> Members(kernel.links, name) == Requested(members)
    ensures reply.Done? ==>
              && kernel.links.Keys == old(kernel.links).Keys
              && forall n | n in old(kernel.links) ::
                   var link := old(kernel.links)[n];
                   kernel.links[n] == if n in members && n !in orig && n != "" then link.(master := Some(name))
                                      else if n in orig && n !in members then link.(master := None)
                                      else link
  {
    var before := kernel.MemberList(name);
    orig := before;
    if name !in kernel.links || kernel.links[name].kind != kind {
      return Refused, orig;
    }
    var toAdd, toRemove := FetchAddRemoveFromList(before, members);
    forall x
      ensures x in toAdd <==> x in members && x !in before
      ensures x in toRemove <==> x in before && x !in members
    {
      WithoutItems(members, before, x);
      WithoutItems(before, members, x);
    }
    var which, common := FindCommonMemberInterfaces(toAdd, toRemove);
    var ok := AllJoinable(kernel, kind, toAdd, kind.Bridge?);
    if common || !ok || |before| + |toAdd| - |toRemove| < 2 {
      return Refused, orig;
    }
    UpdatedMembers(kernel.links, kind, name, before, members, name);
    assert forall x :: x in before <==> x in Members(kernel.links, name);
    ok := kernel.SetMasters(toAdd, name, |toAdd|);
    kernel.SetNoMasters(toRemove);
    reply := Done;
  }

  method DeleteLink(kernel: Kernel, kind: Kind, name: string) returns (reply: Reply)
    requires Owner(kind)
    modifies kernel
    ensures reply.Done? <==> name != "" && name in old(kernel.links) && old(kernel.links)[name].kind == kind
    ensures kernel.links == if reply.Done? then Deleted(old(kernel.links), name) else old(kernel.links)
    ensures reply.Done? ==>
              && kernel.links.Keys == old(kernel.links).Keys - {name}
              && forall n | n in kernel.links ::
                   kernel.links[n] == if old(kernel.links)[n].master == Some(name)
                                      then old(kernel.links)[n].(master := None) else old(kernel.links)[n]
  {
    if name == "" || name !in kernel.links || kernel.links[name].kind != kind {
      return Refused;
    }
    kernel.LinkDel(name);
    return Done;
  }
}
