/**
 * What the permission checker decides, as functions of the configuration, the store's records,
 * the requesting user, that user's group lookup and the root-to-leaf inode list. The class
 * `DefaultPermissionMaster` (module PermissionMasters) is proved to compute exactly these.
 */
module PermissionCheck {
  import opened Results
  import opened Mode
  import opened PosixPermissions

  /** The three configuration values the checker reads. */
  datatype Config = Config(enabled: bool, superUser: string, superGroup: string)

  /** The parts of an inode the checker uses: its file id and its name (for messages). */
  datatype Inode = Inode(id: int, name: string)

  /** A locked inode path: the path string, the inodes from root to leaf (None where no inode
      exists yet) and whether every component of the path exists. */
  datatype InodePath = InodePath(path: string, inodes: seq<Option<Inode>>, fullPathExists: bool)

  /** What is demanded of the last inode: the requested bits, or being its owner. */
  datatype LeafCheck = RequireBits(bits: Bits) | RequireOwner

  /** The reasons an `AccessControlException` is thrown, with the data its message carries. */
  datatype Denial =
    | GroupLookupFailed(reason: string)
    | NotSuperUser(user: string)
    | NotOwner(user: string, path: string)
    | Denied(user: string, bits: Bits, path: string, failedAt: string,
             owner: string, group: string, mode: Short)

  /** The permission store, seen as values. */
  type Store = map<int, Attr>

  /** The external group lookup for a user; it may fail with an I/O error message. */
  type GroupLookup = string -> Result<seq<string>, string>

  /** Every existing inode of the list has a record in the store. */
  predicate Known(store: Store, inodes: seq<Option<Inode>>) {
    forall i :: 0 <= i < |inodes| && inodes[i].Some? ==> inodes[i].value.id in store
  }

  /** The path of the root directory. */
  predicate IsRoot(path: string) {
    path == "/"
  }

  /** `getGroups`: a lookup failure becomes an access-control denial. */
  function GetGroups(lookup: GroupLookup, user: string): (r: Result<seq<string>, Denial>)
    ensures r.Success? <==> lookup(user).Success?
    ensures r.Success? ==> r.value == lookup(user).value
    ensures r.Failure? ==> r.error == GroupLookupFailed(lookup(user).error)
  {
    match lookup(user)
    case Success(groups) => Success(groups)
    case Failure(reason) => Failure(GroupLookupFailed(reason))
  }

  /** `isPrivilegedUser`: the configured super user, or a member of the super group. */
  predicate IsPrivileged(conf: Config, user: string, groups: seq<string>): (b: bool)
    ensures b <==> user == conf.superUser || exists i :: 0 <= i < |groups| && groups[i] == conf.superGroup
  {
    user == conf.superUser || conf.superGroup in groups
  }

  /** An inode grants `bits` if ANY applicable class grants all of them: the owner class when
      the user owns it, the group class when the user is in its group, and the other class. */
  predicate Grants(user: string, groups: seq<string>, a: Attr, bits: Bits) {
    || (user == a.owner && Imply(OwnerBits(a.mode), bits))
    || (a.group in groups && Imply(GroupBits(a.mode), bits))
    || Imply(OtherBits(a.mode), bits)
  }

  /** How a failing inode is named in the denial: the root's empty name prints as "/". */
  function DisplayName(name: string): (r: string)
    ensures r != ""
    ensures name != "" ==> r == name
  {
    if name == "" then "/" else name
  }

  /** `checkInode`: a missing inode passes; an existing one must grant `bits`. */
  function CheckInode(store: Store, user: string, groups: seq<string>, inode: Option<Inode>,
                      bits: Bits, path: string): Outcome<Denial>
    requires inode.Some? ==> inode.value.id in store
  {
    match inode
    case None => Pass
    case Some(n) =>
      var a := store[n.id];
      if Grants(user, groups, a, bits) then Pass
      else Fail(Denied(user, bits, path, DisplayName(n.name), a.owner, a.group, a.mode))
  }

  /** The EXECUTE checks on the ancestors, in order; the first denial is the result. */
  function CheckTraversal(store: Store, user: string, groups: seq<string>,
                          inodes: seq<Option<Inode>>, path: string): Outcome<Denial>
    requires Known(store, inodes)
  {
    if inodes == [] then Pass
    else
      match CheckTraversal(store, user, groups, inodes[..|inodes| - 1], path)
      case Fail(e) => Fail(e)
      case Pass => CheckInode(store, user, groups, inodes[|inodes| - 1], EXECUTE, path)
  }

  /** The check on the last inode that follows a successful traversal. */
  function CheckLeaf(store: Store, user: string, groups: seq<string>, check: LeafCheck,
                     path: string, leaf: Option<Inode>): Outcome<Denial>
    requires leaf.Some? ==> leaf.value.id in store
  {
    match check
    case RequireOwner =>
      if leaf.None? || user == store[leaf.value.id].owner then Pass else Fail(NotOwner(user, path))
    case RequireBits(bits) => CheckInode(store, user, groups, leaf, bits, path)
  }

  /** `checkInodeList`: privileged users pass; otherwise every inode but the last must grant
      EXECUTE and then the last inode is checked. */
  function CheckInodeList(conf: Config, store: Store, user: string, groups: seq<string>,
                          check: LeafCheck, path: string, inodes: seq<Option<Inode>>): Outcome<Denial>
    requires ListCheckable(conf, store, user, groups, inodes)
  {
    if IsPrivileged(conf, user, groups) then Pass
    else
      match CheckTraversal(store, user, groups, inodes[..|inodes| - 1], path)
      case Fail(e) => Fail(e)
      case Pass => CheckLeaf(store, user, groups, check, path, inodes[|inodes| - 1])
  }

  /** The bits an existing inode gives the user: the union over every class that applies. */
  function LeafPermission(user: string, groups: seq<string>, a: Attr): Bits {
    var asOwner := if user == a.owner then Or(NONE, OwnerBits(a.mode)) else NONE;
    var asMember := if a.group in groups then Or(asOwner, GroupBits(a.mode)) else asOwner;
    Or(asMember, OtherBits(a.mode))
  }

  /** `getPermissionInternal`: ALL for privileged users; NONE when an ancestor denies EXECUTE
      or the last inode does not exist; otherwise the leaf's union of applicable classes. */
  function PermissionOf(conf: Config, store: Store, user: string, groups: seq<string>,
                        path: string, inodes: seq<Option<Inode>>): Bits
    requires ListCheckable(conf, store, user, groups, inodes)
  {
    if IsPrivileged(conf, user, groups) then ALL
    else if CheckTraversal(store, user, groups, inodes[..|inodes| - 1], path).Fail? then NONE
    else
      match inodes[|inodes| - 1]
      case None => NONE
      case Some(n) => LeafPermission(user, groups, store[n.id])
  }

  /** What `checkInodeList` needs: a non-empty list (the source asserts it) and, unless the
      user is privileged, a record for every existing inode (the getters dereference it). */
  predicate ListCheckable(conf: Config, store: Store, user: string, groups: seq<string>,
                          inodes: seq<Option<Inode>>) {
    |inodes| > 0 && (!IsPrivileged(conf, user, groups) ==> Known(store, inodes))
  }

  /** What a check on `inodes` needs from its caller: once checking is enabled and the user's
      groups are known, the list must be fit for `checkInodeList`. */
  predicate Checkable(conf: Config, store: Store, lookup: GroupLookup, user: string,
                      inodes: seq<Option<Inode>>) {
    conf.enabled && lookup(user).Success? ==> ListCheckable(conf, store, user, lookup(user).value, inodes)
  }

  /** `checkPermission`. */
  function CheckPermission(conf: Config, store: Store, lookup: GroupLookup, user: string,
                           bits: Bits, ip: InodePath): Outcome<Denial>
    requires Checkable(conf, store, lookup, user, ip.inodes)
  {
    if !conf.enabled then Pass
    else
      match GetGroups(lookup, user)
      case Failure(e) => Fail(e)
      case Success(groups) => CheckInodeList(conf, store, user, groups, RequireBits(bits), ip.path, ip.inodes)
  }

  /** The list `checkParentPermission` checks: the last inode is dropped when the whole path exists. */
  function ParentTarget(ip: InodePath): seq<Option<Inode>>
    requires ip.fullPathExists ==> |ip.inodes| > 0
  {
    if ip.fullPathExists then ip.inodes[..|ip.inodes| - 1] else ip.inodes
  }

  /** What `checkParentPermission` needs from its caller: on a non-root path, once checking is
      enabled and the groups are known, the list left after dropping the leaf is fit for
      `checkInodeList`. */
  predicate ParentCheckable(conf: Config, store: Store, lookup: GroupLookup, user: string,
                            ip: InodePath) {
    conf.enabled && !IsRoot(ip.path) && lookup(user).Success? ==>
      && (ip.fullPathExists ==> |ip.inodes| > 0)
      && ListCheckable(conf, store, user, lookup(user).value, ParentTarget(ip))
  }

  /** `checkParentPermission`. */
  function CheckParentPermission(conf: Config, store: Store, lookup: GroupLookup, user: string,
                                 bits: Bits, ip: InodePath): Outcome<Denial>
    requires ParentCheckable(conf, store, lookup, user, ip)
  {
    if !conf.enabled then Pass
    else if IsRoot(ip.path) then Pass
    else
      match GetGroups(lookup, user)
      case Failure(e) => Fail(e)
      case Success(groups) =>
        CheckInodeList(conf, store, user, groups, RequireBits(bits), ip.path, ParentTarget(ip))
  }

  /** `getPermission`: never fails; a denial of any kind becomes NONE. */
  function GetPermission(conf: Config, store: Store, lookup: GroupLookup, user: string,
                         ip: InodePath): Bits
    requires Checkable(conf, store, lookup, user, ip.inodes)
  {
    if !conf.enabled then NONE
    else
      match GetGroups(lookup, user)
      case Failure(_) => NONE
      case Success(groups) => PermissionOf(conf, store, user, groups, ip.path, ip.inodes)
  }

  /** `checkSuperUser`. */
  function CheckSuperUser(conf: Config, lookup: GroupLookup, user: string): Outcome<Denial> {
    match GetGroups(lookup, user)
    case Failure(e) => Fail(e)
    case Success(groups) => if IsPrivileged(conf, user, groups) then Pass else Fail(NotSuperUser(user))
  }

  /** `checkOwner` (called only while checking is enabled). */
  function CheckOwner(conf: Config, store: Store, lookup: GroupLookup, user: string,
                      ip: InodePath): Outcome<Denial>
    requires lookup(user).Success? && !IsPrivileged(conf, user, lookup(user).value) ==>
               ListCheckable(conf, store, user, lookup(user).value, ip.inodes)
  {
    match GetGroups(lookup, user)
    case Failure(e) => Fail(e)
    case Success(groups) =>
      if IsPrivileged(conf, user, groups) then Pass
      else CheckInodeList(conf, store, user, groups, RequireOwner, ip.path, ip.inodes)
  }

  /** `checkSetAttributePermission`: super user if required, then owner if required, then WRITE. */
  function CheckSetAttributePermission(conf: Config, store: Store, lookup: GroupLookup, user: string,
                                       ip: InodePath, superuserRequired: bool,
                                       ownerRequired: bool): Outcome<Denial>
    requires Checkable(conf, store, lookup, user, ip.inodes)
  {
    if !conf.enabled then Pass
    else if superuserRequired && CheckSuperUser(conf, lookup, user).Fail? then
      CheckSuperUser(conf, lookup, user)
    else if ownerRequired && CheckOwner(conf, store, lookup, user, ip).Fail? then
      CheckOwner(conf, store, lookup, user, ip)
    else CheckPermission(conf, store, lookup, user, WRITE, ip)
  }
}
