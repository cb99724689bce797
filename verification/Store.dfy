/** The JSON store (store/store.go): deployments by id and a list of image registries.
    Every operation either persists its new state as its last step or leaves the state alone;
    `io` says whether reading and persisting succeed. Secrets are kept in clear: AES-GCM is only
    used as an inverse pair. */
module Store {
  import opened Text

  datatype Status = Idle | Deploying | Healthy | Failed

  datatype BasicAuthUser = BasicAuthUser(username: string, password: string)

  datatype Security = Security(wafEnabled: bool, wafMode: string, ipDenylist: seq<string>,
                               ipAllowlist: seq<string>, customRules: seq<string>)

  datatype FileMount = FileMount(source: string, target: string, content: string, uid: Option<int>,
                                 gid: Option<int>, fileMode: string, readOnly: bool)

  datatype Deployment = Deployment(id: string, name: string, image: string, envs: map<string, string>,
                                   ports: seq<string>, proxyPort: int, volumes: seq<string>,
                                   fileMounts: seq<FileMount>, domain: string, isPublic: bool,
                                   basicAuth: Option<seq<BasicAuthUser>>, security: Option<Security>,
                                   status: Status, reason: string, error: string)

  /** The argument of Patch: None (or "") is a field the patch does not set. */
  datatype Patch = Patch(image: string, envs: Option<map<string, string>>, ports: Option<seq<string>>,
                         proxyPort: Option<int>, volumes: Option<seq<string>>,
                         fileMounts: Option<seq<FileMount>>, domain: string, isPublic: Option<bool>,
                         basicAuth: Option<seq<BasicAuthUser>>, security: Option<Security>,
                         status: Option<Status>, reason: string, error: string)

  datatype Registry = Registry(id: string, prefix: string, username: string, secret: string)

  datatype State = State(deployments: map<string, Deployment>, registries: seq<Registry>)

  datatype Error = NotFound | DuplicateName | RegistryNotFound | DuplicateRegistryPrefix | Required | Io

  datatype Result<+T> = Ok(value: T) | Err(error: Error)

  // ---------------------------------------------------------------- deployments

  function MergePatch(d: Deployment, p: Patch): Deployment {
    Deployment(
      d.id, d.name,
      if p.image != "" then p.image else d.image,
      if p.envs.Some? then p.envs.value else d.envs,
      if p.ports.Some? then p.ports.value else d.ports,
      if p.proxyPort.Some? then p.proxyPort.value else d.proxyPort,
      if p.volumes.Some? then p.volumes.value else d.volumes,
      if p.fileMounts.Some? then p.fileMounts.value else d.fileMounts,
      if p.domain != "" then p.domain else d.domain,
      if p.isPublic.Some? then p.isPublic.value else d.isPublic,
      if p.basicAuth.Some? then p.basicAuth else d.basicAuth,
      if p.security.Some? then p.security else d.security,
      if p.status.Some? then p.status.value else d.status,
      if p.status.Some? then p.reason else d.reason,
      if p.status.Some? then p.error else if p.error != "" then p.error else d.error)
  }

  predicate NameTaken(s: State, name: string) {
    exists id :: id in s.deployments && s.deployments[id].name == name
  }

  function Created(s: State, d: Deployment, io: bool): (State, Result<Deployment>) {
    if !io then (s, Err(Io))
    else if NameTaken(s, d.name) then (s, Err(DuplicateName))
    else (s.(deployments := s.deployments[d.id := d]), Ok(d))
  }

  function Updated(s: State, d: Deployment, io: bool): (State, Result<Deployment>) {
    if !io then (s, Err(Io))
    else if d.id !in s.deployments then (s, Err(NotFound))
    else (s.(deployments := s.deployments[d.id := d]), Ok(d))
  }

  function Patched(s: State, id: string, p: Patch, io: bool): (State, Result<Deployment>) {
    if !io then (s, Err(Io))
    else if id !in s.deployments then (s, Err(NotFound))
    else
      var d := MergePatch(s.deployments[id], p);
      (s.(deployments := s.deployments[id := d]), Ok(d))
  }

  function Deleted(s: State, id: string, io: bool): (State, Result<()>) {
    if !io then (s, Err(Io))
    else if id !in s.deployments then (s, Err(NotFound))
    else (s.(deployments := s.deployments - {id}), Ok(()))
  }

  // ---------------------------------------------------------------- registries

  function NormalizePrefix(prefix: string): string {
    var p := TrimSpace(ToLower(prefix));
    TrimSuffix(TrimPrefix(TrimPrefix(p, "https://"), "http://"), "/")
  }

  /** A prefix in stored form: lower case, trimmed, without scheme or final slash. */
  predicate PlainPrefix(p: string) {
    && p != "" && ToLower(p) == p && Trimmed(p) && p[|p| - 1] != '/'
    && !HasPrefix(p, "https://") && !HasPrefix(p, "http://")
  }

  /** A registry may be named with either scheme, a final slash, both or neither. */
  lemma PrefixSpellings(p: string, scheme: string, tail: string)
    requires PlainPrefix(p) && (scheme == "" || scheme == "https://" || scheme == "http://")
    requires tail == "" || tail == "/"
    ensures NormalizePrefix(scheme + p + tail) == p
  {
    LoweredAsIs(scheme, p, tail);
    StripTail(p, tail);
    SchemeCut(p, scheme, tail);
    hide TrimSpace, TrimSuffix, TrimPrefix, ToLower, PlainPrefix;
  }

  lemma SchemeCut(p: string, scheme: string, tail: string)
    requires PlainPrefix(p) && (scheme == "" || scheme == "https://" || scheme == "http://")
    requires tail == "" || tail == "/"
    ensures TrimPrefix(TrimPrefix(scheme + p + tail, "https://"), "http://") == p + tail
  {
    SchemeFacts(p, tail);
    hide TrimPrefix, PlainPrefix;
    Regrouped(scheme, p, tail);
    if scheme != "" { StripScheme(scheme, p + tail); }
  }

  lemma Regrouped(scheme: string, p: string, tail: string)
    ensures scheme + p + tail == scheme + (p + tail)
    ensures scheme == "" ==> scheme + p + tail == p + tail
  {
  }

  lemma LoweredAsIs(scheme: string, p: string, tail: string)
    requires PlainPrefix(p) && (scheme == "" || scheme == "https://" || scheme == "http://")
    requires tail == "" || tail == "/"
    ensures TrimSpace(ToLower(scheme + p + tail)) == scheme + p + tail
  {
    hide TrimSpace;
    var s := scheme + p + tail;
    forall i | 0 <= i < |s| ensures LowerChar(s[i]) == s[i] {
      if |scheme| <= i < |scheme| + |p| { assert ToLower(p)[i - |scheme|] == s[i]; }
    }
    assert ToLower(s) == s;
    assert Trimmed(s);
  }

  lemma StripScheme(scheme: string, rest: string)
    ensures TrimPrefix(scheme + rest, scheme) == rest
  {
  }

  lemma StripTail(p: string, tail: string)
    requires PlainPrefix(p) && (tail == "" || tail == "/")
    ensures TrimSuffix(p + tail, "/") == p
  {
    hide ToLower, Trimmed;
    if tail == "/" {
      assert (p + tail)[|p|..] == tail && (p + tail)[..|p|] == p;
    } else {
      assert p + tail == p && p[|p| - 1..][0] != "/"[0];
    }
  }

  /** No scheme can be cut from the prefix, nor the longer one from the shorter. */
  lemma SchemeFacts(p: string, tail: string)
    requires PlainPrefix(p) && (tail == "" || tail == "/")
    ensures TrimPrefix(p + tail, "https://") == TrimPrefix(p + tail, "http://") == p + tail
    ensures TrimPrefix("http://" + (p + tail), "https://") == "http://" + (p + tail)
  {
    hide ToLower, Trimmed;
    NotLonger(p, tail, "https://");
    NotLonger(p, tail, "http://");
    assert ("http://" + (p + tail))[4] == ':' && "https://"[4] == 's';
  }

  lemma NotLonger(p: string, tail: string, scheme: string)
    requires p != "" && p[|p| - 1] != '/' && |tail| <= 1 && |scheme| >= 2 && scheme[|scheme| - 2] == '/'
    requires !(scheme <= p)
    ensures !(scheme <= p + tail)
  {
    assert (p + tail)[|p| - 1] == p[|p| - 1];
  }

  /** Is some registry other than those with id `id` already using the prefix? */
  predicate PrefixTaken(rs: seq<Registry>, prefix: string, id: Option<string>) {
    exists i :: 0 <= i < |rs| && rs[i].prefix == prefix && id != Some(rs[i].id)
  }

  /** Index of the last registry with the id, or |rs|. */
  function LastWithId(rs: seq<Registry>, id: string): (i: nat)
    ensures i <= |rs| && (i < |rs| ==> rs[i].id == id)
    ensures i == |rs| <==> forall j :: 0 <= j < |rs| ==> rs[j].id != id
    ensures i < |rs| ==> forall j :: i < j < |rs| ==> rs[j].id != id
  {
    if rs == [] then 0
    else if rs[|rs| - 1].id == id then |rs| - 1
    else
      var i := LastWithId(rs[..|rs| - 1], id);
      if i == |rs| - 1 then |rs| else i
  }

  /** Index of the first registry with the id, or |rs|. */
  function FirstWithId(rs: seq<Registry>, id: string): (i: nat)
    ensures i <= |rs| && (i < |rs| ==> rs[i].id == id)
    ensures forall j :: 0 <= j < i ==> rs[j].id != id
  {
    if rs == [] || rs[0].id == id then 0 else 1 + FirstWithId(rs[1..], id)
  }

  function RegistryInserted(s: State, r: Registry, io: bool): (State, Result<()>) {
    if r.id == "" || r.prefix == "" || r.username == "" || r.secret == "" then (s, Err(Required))
    else if !io then (s, Err(Io))
    else if PrefixTaken(s.registries, r.prefix, None) then (s, Err(DuplicateRegistryPrefix))
    else (s.(registries := s.registries + [r]), Ok(()))
  }

  /** An empty secret keeps the stored one. */
  function RegistryReplaced(s: State, r: Registry, io: bool): (State, Result<()>) {
    var i := LastWithId(s.registries, r.id);
    if r.id == "" || r.prefix == "" || r.username == "" then (s, Err(Required))
    else if !io then (s, Err(Io))
    else if PrefixTaken(s.registries, r.prefix, Some(r.id)) then (s, Err(DuplicateRegistryPrefix))
    else if i == |s.registries| then (s, Err(RegistryNotFound))
    else
      var secret := if r.secret != "" then r.secret else s.registries[i].secret;
      (s.(registries := s.registries[i := r.(secret := secret)]), Ok(()))
  }

  /** What CreateRegistry and UpdateRegistry make of their arguments before they store them. */
  function Normalized(id: string, prefix: string, username: string, password: string): Registry {
    Registry(id, NormalizePrefix(prefix), TrimSpace(username), TrimSpace(password))
  }

  function RegistryCreated(s: State, id: string, prefix: string, username: string, password: string, io: bool)
    : (State, Result<()>)
  {
    RegistryInserted(s, Normalized(id, prefix, username, password), io)
  }

  function RegistryUpdated(s: State, id: string, prefix: string, username: string, password: string, io: bool)
    : (State, Result<()>)
  {
    RegistryReplaced(s, Normalized(id, prefix, username, password), io)
  }

  function RegistryDeleted(s: State, id: string, io: bool): (State, Result<()>) {
    var i := FirstWithId(s.registries, id);
    if TrimSpace(id) == "" then (s, Err(RegistryNotFound))
    else if !io then (s, Err(Io))
    else if i == |s.registries| then (s, Err(RegistryNotFound))
    else (s.(registries := s.registries[..i] + s.registries[i + 1..]), Ok(()))
  }

  // ---------------------------------------------------------------- credential lookup

  /** registryMatchesImage: the image is the prefix, or continues after a separator. */
  predicate MatchesImage(prefix: string, image: string) {
    HasPrefix(image, prefix) &&
    (|image| == |prefix| || image[|prefix|] == '/' || image[|prefix|] == ':' || image[|prefix|] == '@')
  }

  /** A prefix matches itself and what continues it after one of the three separators, nothing else. */
  lemma MatchesExactly(prefix: string, image: string)
    ensures MatchesImage(prefix, image) <==>
            image == prefix || exists x :: image == prefix + "/" + x || image == prefix + ":" + x ||
                                           image == prefix + "@" + x
  {
    if MatchesImage(prefix, image) && image != prefix {
      var x := image[|prefix| + 1..];
      assert image == prefix + [image[|prefix|]] + x;
    }
  }

  function NormalizeImage(image: string): string { TrimSpace(ToLower(image)) }

  /** r is a stored registry whose prefix matches, and every other match is strictly shorter. */
  predicate LongestMatch(rs: seq<Registry>, image: string, r: Registry) {
    && r in rs && MatchesImage(r.prefix, image)
    && forall i :: 0 <= i < |rs| && rs[i] != r && MatchesImage(rs[i].prefix, image) ==> |rs[i].prefix| < |r.prefix|
  }

  /** Among the first n registries the k-th matches, no match is longer, and no earlier one is as long. */
  predicate LongestAt(rs: seq<Registry>, n: nat, image: string, k: int)
    requires 0 <= k < n <= |rs|
  {
    && MatchesImage(rs[k].prefix, image)
    && forall j :: 0 <= j < n && MatchesImage(rs[j].prefix, image) ==>
         |rs[j].prefix| <= |rs[k].prefix| && (j < k ==> |rs[j].prefix| < |rs[k].prefix|)
  }

  predicate FirstLongest(rs: seq<Registry>, image: string, m: Registry) {
    exists k :: 0 <= k < |rs| && rs[k] == m && LongestAt(rs, |rs|, image, k)
  }

  predicate UniquePrefixes(rs: seq<Registry>) {
    forall i, j :: 0 <= i < j < |rs| ==> rs[i].prefix != rs[j].prefix
  }

  predicate UniqueIds(rs: seq<Registry>) {
    forall i, j :: 0 <= i < j < |rs| ==> rs[i].id != rs[j].id
  }

  /** JSONStore. The lock and the files are not modelled: each method is one atomic step. */
  class JSONStore {
    var deployments: map<string, Deployment>
    var registries: seq<Registry>

    ghost function Contents(): State
      reads this
    {
      State(deployments, registries)
    }

    constructor ()
      ensures Contents() == State(map[], [])
    {
      deployments, registries := map[], [];
    }

    method Create(d: Deployment, io: bool) returns (r: Result<Deployment>)
      modifies this
      ensures (Contents(), r) == Created(old(Contents()), d, io)
    {
      if !io { return Err(Io); }
      var ids := deployments.Keys;
      while ids != {}
        invariant ids <= deployments.Keys
        invariant forall id :: id in deployments && id !in ids ==> deployments[id].name != d.name
        invariant Contents() == old(Contents())
      {
        var id :| id in ids;
        if deployments[id].name == d.name { return Err(DuplicateName); }
        ids := ids - {id};
      }
      deployments := deployments[d.id := d];
      return Ok(d);
    }

    method Update(d: Deployment, io: bool) returns (r: Result<Deployment>)
      modifies this
      ensures (Contents(), r) == Updated(old(Contents()), d, io)
    {
      if !io { return Err(Io); }
      if d.id !in deployments { return Err(NotFound); }
      deployments := deployments[d.id := d];
      return Ok(d);
    }

    method Patch(id: string, p: Patch, io: bool) returns (r: Result<Deployment>)
      modifies this
      ensures (Contents(), r) == Patched(old(Contents()), id, p, io)
    {
      if !io { return Err(Io); }
      if id !in deployments { return Err(NotFound); }
      var d := MergePatch(deployments[id], p);
      deployments := deployments[id := d];
      return Ok(d);
    }

    method Delete(id: string, io: bool) returns (r: Result<()>)
      modifies this
      ensures (Contents(), r) == Deleted(old(Contents()), id, io)
    {
      if !io { return Err(Io); }
      if id !in deployments { return Err(NotFound); }
      deployments := deployments - {id};
      return Ok(());
    }

    method CreateRegistry(id: string, prefix: string, username: string, password: string, io: bool)
      returns (r: Result<()>)
      modifies this
      ensures (Contents(), r) == RegistryCreated(old(Contents()), id, prefix, username, password, io)
    {
      var entry := Normalized(id, prefix, username, password);
      r := InsertRegistry(entry, io);
    }

    method InsertRegistry(entry: Registry, io: bool) returns (r: Result<()>)
      modifies this
      ensures (Contents(), r) == RegistryInserted(old(Contents()), entry, io)
    {
      if entry.id == "" || entry.prefix == "" || entry.username == "" || entry.secret == "" { return Err(Required); }
      if !io { return Err(Io); }
      for i := 0 to |registries|
        invariant forall j :: 0 <= j < i ==> registries[j].prefix != entry.prefix
        invariant Contents() == old(Contents())
      {
        if registries[i].prefix == entry.prefix { return Err(DuplicateRegistryPrefix); }
      }
      registries := registries + [entry];
      return Ok(());
    }

    method UpdateRegistry(id: string, prefix: string, username: string, password: string, io: bool)
      returns (r: Result<()>)
      modifies this
      ensures (Contents(), r) == RegistryUpdated(old(Contents()), id, prefix, username, password, io)
    {
      var entry := Normalized(id, prefix, username, password);
      r := ReplaceRegistry(entry, io);
    }

    method ReplaceRegistry(entry: Registry, io: bool) returns (r: Result<()>)
      modifies this
      ensures (Contents(), r) == RegistryReplaced(old(Contents()), entry, io)
    {
      if entry.id == "" || entry.prefix == "" || entry.username == "" { return Err(Required); }
      if !io { return Err(Io); }
      var index := -1;
      for i := 0 to |registries|
        invariant -1 <= index < i
        invariant index >= 0 ==> registries[index].id == entry.id
        invariant forall j :: index < j < i ==> registries[j].id != entry.id
        invariant forall j :: 0 <= j < i && registries[j].id != entry.id ==> registries[j].prefix != entry.prefix
        invariant Contents() == old(Contents())
      {
        if registries[i].id == entry.id {
          index := i;
        } else if registries[i].prefix == entry.prefix {
          return Err(DuplicateRegistryPrefix);
        }
      }
      if index == -1 { return Err(RegistryNotFound); }
      assert index == LastWithId(registries, entry.id);
      var updated := entry;
      if entry.secret == "" { updated := updated.(secret := registries[index].secret); }
      registries := registries[index := updated];
      return Ok(());
    }

    method DeleteRegistry(id: string, io: bool) returns (r: Result<()>)
      modifies this
      ensures (Contents(), r) == RegistryDeleted(old(Contents()), id, io)
    {
      if TrimSpace(id) == "" { return Err(RegistryNotFound); }
      if !io { return Err(Io); }
      for i := 0 to |registries|
        invariant forall j :: 0 <= j < i ==> registries[j].id != id
        invariant Contents() == old(Contents())
      {
        if registries[i].id == id {
          assert i == FirstWithId(registries, id);
          registries := registries[..i] + registries[i + 1..];
          return Ok(());
        }
      }
      return Err(RegistryNotFound);
    }

    /** ResolveRegistryAuth, up to the decryption of the secret. */
    method ResolveRegistryAuth(imageRef: string) returns (r: Option<Registry>)
      ensures var image := NormalizeImage(imageRef);
              match r
              case None =>
                image == "" || forall i :: 0 <= i < |registries| ==> !MatchesImage(registries[i].prefix, image)
              case Some(m) => image != "" && FirstLongest(registries, image, m) &&
                              (UniquePrefixes(registries) ==> LongestMatch(registries, image, m))
    {
      hide NormalizeImage, MatchesImage, UniquePrefixes, LongestMatch;
      var image := NormalizeImage(imageRef);
      if image == "" { return None; }
      r := None;
      ghost var k := 0;
      for i := 0 to |registries|
        invariant r.None? ==> forall j :: 0 <= j < i ==> !MatchesImage(registries[j].prefix, image)
        invariant r.Some? ==> 0 <= k < i && registries[k] == r.value && LongestAt(registries, i, image, k)
      {
        var candidate := registries[i];
        if MatchesImage(candidate.prefix, image) {
          if r.None? || |candidate.prefix| > |r.value.prefix| { r, k := Some(candidate), i; }
        }
      }
      if r.Some? { StrictlyLongest(registries, image, k); }
    }
  }

  /** Two matches of one image with equally long prefixes have the same prefix. */
  lemma StrictlyLongest(rs: seq<Registry>, image: string, k: nat)
    requires k < |rs| && LongestAt(rs, |rs|, image, k)
    ensures FirstLongest(rs, image, rs[k]) && (UniquePrefixes(rs) ==> LongestMatch(rs, image, rs[k]))
  {
    var m := rs[k];
    if UniquePrefixes(rs) {
      forall i | 0 <= i < |rs| && rs[i] != m && MatchesImage(rs[i].prefix, image)
        ensures |rs[i].prefix| < |m.prefix|
      {
        assert i < k || k < i;
        assert rs[i].prefix == image[..|rs[i].prefix|] && m.prefix == image[..|m.prefix|];
      }
    }
  }

  /** The longest match is the same whatever the stored order. */
  lemma LongestMatchIgnoresOrder(rs: seq<Registry>, qs: seq<Registry>, image: string, m: Registry, n: Registry)
    requires forall r :: r in rs <==> r in qs
    requires LongestMatch(rs, image, m) && LongestMatch(qs, image, n)
    ensures m == n
  {
    assert m in qs && n in rs;
    var i :| 0 <= i < |rs| && rs[i] == n;
    var j :| 0 <= j < |qs| && qs[j] == m;
  }

  // ---------------------------------------------------------------- runs of operations

  datatype Op =
    | OpCreate(d: Deployment)
    | OpUpdate(d: Deployment)
    | OpPatch(id: string, p: Patch)
    | OpDelete(id: string)
    | OpCreateRegistry(id: string, prefix: string, username: string, password: string)
    | OpUpdateRegistry(id: string, prefix: string, username: string, password: string)
    | OpDeleteRegistry(id: string)

  function Apply(s: State, op: Op, io: bool): State {
    match op
    case OpCreate(d) => Created(s, d, io).0
    case OpUpdate(d) => Updated(s, d, io).0
    case OpPatch(id, p) => Patched(s, id, p, io).0
    case OpDelete(id) => Deleted(s, id, io).0
    case OpCreateRegistry(id, prefix, u, pw) => RegistryCreated(s, id, prefix, u, pw, io).0
    case OpUpdateRegistry(id, prefix, u, pw) => RegistryUpdated(s, id, prefix, u, pw, io).0
    case OpDeleteRegistry(id) => RegistryDeleted(s, id, io).0
  }

  function Run(s: State, ops: seq<(Op, bool)>): State
    decreases |ops|
  {
    if ops == [] then s else Run(Apply(s, ops[0].0, ops[0].1), ops[1..])
  }

  function IdsIn(rs: seq<Registry>): set<string> { set i | 0 <= i < |rs| :: rs[i].id }

  /** Registry ids are drawn at random; the draw never repeats an id in use. */
  ghost predicate FreshIds(s: State, ops: seq<(Op, bool)>)
    decreases |ops|
  {
    ops != [] ==>
      && (ops[0].0.OpCreateRegistry? ==> ops[0].0.id !in IdsIn(s.registries))
      && FreshIds(Apply(s, ops[0].0, ops[0].1), ops[1..])
  }

  lemma InsertKeepsUnique(s: State, r: Registry, io: bool)
    requires UniquePrefixes(s.registries) && UniqueIds(s.registries) && r.id !in IdsIn(s.registries)
    ensures UniquePrefixes(RegistryInserted(s, r, io).0.registries)
    ensures UniqueIds(RegistryInserted(s, r, io).0.registries)
  {
    forall i | 0 <= i < |s.registries| ensures s.registries[i].id != r.id {
      assert s.registries[i].id in IdsIn(s.registries);
    }
  }

  lemma ReplaceKeepsUnique(s: State, r: Registry, io: bool)
    requires UniquePrefixes(s.registries) && UniqueIds(s.registries)
    ensures UniquePrefixes(RegistryReplaced(s, r, io).0.registries)
    ensures UniqueIds(RegistryReplaced(s, r, io).0.registries)
  {
    var i := LastWithId(s.registries, r.id);
    assert i < |s.registries| ==> forall j :: 0 <= j < |s.registries| && j != i ==> s.registries[j].id != r.id;
  }

  lemma DeleteKeepsUnique(s: State, id: string, io: bool)
    requires UniquePrefixes(s.registries) && UniqueIds(s.registries)
    ensures UniquePrefixes(RegistryDeleted(s, id, io).0.registries)
    ensures UniqueIds(RegistryDeleted(s, id, io).0.registries)
  {
    var rs, i := s.registries, FirstWithId(s.registries, id);
    if i < |rs| { RemoveKeepsUnique(rs, i); }
  }

  lemma RemoveKeepsUnique(rs: seq<Registry>, i: int)
    requires 0 <= i < |rs| && UniquePrefixes(rs) && UniqueIds(rs)
    ensures UniquePrefixes(rs[..i] + rs[i + 1..]) && UniqueIds(rs[..i] + rs[i + 1..])
  {
    var after := rs[..i] + rs[i + 1..];
    forall k | 0 <= k < |after| ensures after[k] == rs[if k < i then k else k + 1] {}
  }

  lemma ApplyKeepsUnique(s: State, op: Op, io: bool)
    requires UniquePrefixes(s.registries) && UniqueIds(s.registries)
    requires op.OpCreateRegistry? ==> op.id !in IdsIn(s.registries)
    ensures UniquePrefixes(Apply(s, op, io).registries) && UniqueIds(Apply(s, op, io).registries)
  {
    hide NormalizePrefix, TrimSpace, MergePatch, NameTaken, RegistryInserted, RegistryReplaced, RegistryDeleted,
         UniquePrefixes, UniqueIds;
    match op
    case OpCreateRegistry(id, prefix, u, pw) => InsertKeepsUnique(s, Normalized(id, prefix, u, pw), io);
    case OpUpdateRegistry(id, prefix, u, pw) => ReplaceKeepsUnique(s, Normalized(id, prefix, u, pw), io);
    case OpDeleteRegistry(id) => DeleteKeepsUnique(s, id, io);
    case _ =>
  }

  /** Registry prefixes stay unique over every run of registry and deployment operations. */
  lemma {:induction false} RunKeepsUnique(s: State, ops: seq<(Op, bool)>)
    requires UniquePrefixes(s.registries) && UniqueIds(s.registries) && FreshIds(s, ops)
    ensures UniquePrefixes(Run(s, ops).registries) && UniqueIds(Run(s, ops).registries)
    decreases |ops|
  {
    if ops != [] {
      ApplyKeepsUnique(s, ops[0].0, ops[0].1);
      RunKeepsUnique(Apply(s, ops[0].0, ops[0].1), ops[1..]);
    }
  }

  /** Without unique ids, UpdateRegistry keeps prefixes unique exactly when no earlier entry with
      the same id holds the new prefix: the duplicate check skips every entry with that id. */
  lemma ReplaceKeepsUniqueExactly(s: State, r: Registry)
    requires UniquePrefixes(s.registries) && RegistryReplaced(s, r, true).1.Ok?
    ensures UniquePrefixes(RegistryReplaced(s, r, true).0.registries)
            <==> (forall j :: 0 <= j < LastWithId(s.registries, r.id) && s.registries[j].id == r.id ==>
                                s.registries[j].prefix != r.prefix)
  {
    var rs, i := s.registries, LastWithId(s.registries, r.id);
    var after := RegistryReplaced(s, r, true).0.registries;
    assert forall j :: 0 <= j < |rs| && j != i ==> after[j] == rs[j];
    assert after[i].prefix == r.prefix;
    if UniquePrefixes(after) {
      forall j | 0 <= j < i && rs[j].id == r.id ensures rs[j].prefix != r.prefix {
        assert after[j].prefix != after[i].prefix;
      }
    }
  }

  const TWICE_SAME_ID := [
    (OpCreateRegistry("1", "a", "u", "p"), true), (OpCreateRegistry("1", "b", "u", "p"), true),
    (OpUpdateRegistry("1", "a", "u", "p"), true)]

  /** Two registries drawn with the id "1" make the duplicate check of an update miss a clash: after
      creating "a" and "b" and renaming "1" to "a", two entries have the prefix "a". */
  lemma SharedIdBreaksUniqueness()
    ensures Run(State(map[], []), TWICE_SAME_ID) ==
            State(map[], [Registry("1", "a", "u", "p"), Registry("1", "a", "u", "p")])
    ensures !UniquePrefixes(Run(State(map[], []), TWICE_SAME_ID).registries)
  {
    hide Normalized, RegistryInserted, RegistryReplaced;
    NormalizedOne("a");
    NormalizedOne("b");
    var none, a, b := State(map[], []), Registry("1", "a", "u", "p"), Registry("1", "b", "u", "p");
    assert "a"[0] != "b"[0];
    CreateTwoRenameOne(none, a, b);
    RunThree(none, TWICE_SAME_ID);
    var one := Apply(none, TWICE_SAME_ID[0].0, true);
    assert one == RegistryInserted(none, a, true).0;
    var two := Apply(one, TWICE_SAME_ID[1].0, true);
    assert two == RegistryInserted(one, b, true).0;
    assert Apply(two, TWICE_SAME_ID[2].0, true) == RegistryReplaced(two, a, true).0;
    assert [a, a][0].prefix == [a, a][1].prefix;
  }

  /** Two entries with one id, and the second renamed to the first. */
  lemma CreateTwoRenameOne(none: State, a: Registry, b: Registry)
    requires none.registries == [] && a.id == b.id && a.prefix != b.prefix
    requires forall r :: r in [a, b] ==> r.id != "" && r.prefix != "" && r.username != "" && r.secret != ""
    ensures var one := RegistryInserted(none, a, true).0; var two := RegistryInserted(one, b, true).0;
            RegistryReplaced(two, a, true).0 == none.(registries := [a, a])
  {
    assert a in [a, b] && b in [a, b];
    var one := RegistryInserted(none, a, true).0;
    assert one.registries == [a];
    var two := RegistryInserted(one, b, true).0;
    assert two.registries == [a, b];
    assert LastWithId([a, b], a.id) == 1;
    assert [a, b][1 := a] == [a, a];
  }

  lemma RunThree(s: State, ops: seq<(Op, bool)>)
    requires |ops| == 3
    ensures Run(s, ops) == Apply(Apply(Apply(s, ops[0].0, ops[0].1), ops[1].0, ops[1].1), ops[2].0, ops[2].1)
  {
    hide Apply;
    var one := Apply(s, ops[0].0, ops[0].1);
    var two := Apply(one, ops[1].0, ops[1].1);
    assert ops[1..][0] == ops[1] && ops[1..][1..][0] == ops[2] && ops[1..][1..][1..] == [];
    assert Run(one, ops[1..]) == Run(two, ops[1..][1..]);
  }

  lemma NormalizedOne(prefix: string)
    requires |prefix| == 1 && 'a' <= prefix[0] <= 'z'
    ensures Normalized("1", prefix, "u", "p") == Registry("1", prefix, "u", "p")
  {
    assert Trimmed(prefix) && Trimmed("u") && Trimmed("p");
    assert ToLower(prefix) == prefix;
    assert !("https://" <= prefix) && !("http://" <= prefix) && prefix[0] != '/';
  }
}
