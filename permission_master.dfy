/**
 * `DefaultPermissionMaster`: the map from file id to permission record, its getters and
 * setters, and the permission checks, which read the records through the getters. Each check
 * is proved to compute the function of the same name in PermissionCheck.
 */
module PermissionMasters {
  import opened Results
  import opened Mode
  import opened PosixPermissions
  import opened PermissionCheck
  import PermissionProperties

  class DefaultPermissionMaster {
    /** Whether checking is enabled, the super user and the super group, read at construction. */
    const conf: Config
    var permissions: map<int, PosixPermission>

    constructor (conf: Config)
      ensures this.conf == conf && permissions == map[]
      ensures Valid()
    {
      this.conf := conf;
      permissions := map[];
    }

    /** Each file id has a record object of its own. */
    ghost predicate Valid()
      reads this
    {
      forall i, j :: i in permissions && j in permissions && i != j ==> permissions[i] != permissions[j]
    }

    /** The records' current values. */
    function Records(): (s: Store)
      reads this, permissions.Values
      ensures s.Keys == permissions.Keys
    {
      map id | id in permissions :: permissions[id].Value()
    }

    /** `getGroup`: the record must exist (the source dereferences it unchecked). */
    method GetGroup(id: int) returns (group: string)
      requires id in permissions
      ensures group == Records()[id].group
    {
      group := permissions[id].group;
    }

    /** `getMode`: the record must exist. */
    method GetMode(id: int) returns (mode: Short)
      requires id in permissions
      ensures mode == Records()[id].mode
    {
      mode := permissions[id].mode;
    }

    /** `getOwner`: the record must exist. */
    method GetOwner(id: int) returns (owner: string)
      requires id in permissions
      ensures owner == Records()[id].owner
    {
      owner := permissions[id].owner;
    }

    /** `setGroup`: changes the group of the id's record in place; for an id without a record
        the new record it builds is never stored, so nothing changes. */
    method SetGroup(id: int, group: string)
      requires Valid()
      modifies if id in permissions then {permissions[id]} else {}
      ensures Valid() && permissions == old(permissions)
      ensures id in permissions ==> Records() == old(Records())[id := old(Records())[id].(group := group)]
      ensures id !in permissions ==> Records() == old(Records())
    {
      ghost var before := Records();
      var p: PosixPermission;
      if id in permissions {
        p := permissions[id];
      } else {
        p := new PosixPermission();
      }
      var _ := p.SetGroup(group);
      if id in permissions {
        forall k | k in permissions ensures Records()[k] == before[id := before[id].(group := group)][k] {
          if k != id {
            assert permissions[k] != p;
          }
        }
      }
    }

    /** `setMode`: as `setGroup`, for the mode. */
    method SetMode(id: int, mode: Short)
      requires Valid()
      modifies if id in permissions then {permissions[id]} else {}
      ensures Valid() && permissions == old(permissions)
      ensures id in permissions ==> Records() == old(Records())[id := old(Records())[id].(mode := mode)]
      ensures id !in permissions ==> Records() == old(Records())
    {
      ghost var before := Records();
      var p: PosixPermission;
      if id in permissions {
        p := permissions[id];
      } else {
        p := new PosixPermission();
      }
      var _ := p.SetMode(mode);
      if id in permissions {
        forall k | k in permissions ensures Records()[k] == before[id := before[id].(mode := mode)][k] {
          if k != id {
            assert permissions[k] != p;
          }
        }
      }
    }

    /** `setOwner`: as `setGroup`, for the owner. */
    method SetOwner(id: int, owner: string)
      requires Valid()
      modifies if id in permissions then {permissions[id]} else {}
      ensures Valid() && permissions == old(permissions)
      ensures id in permissions ==> Records() == old(Records())[id := old(Records())[id].(owner := owner)]
      ensures id !in permissions ==> Records() == old(Records())
    {
      ghost var before := Records();
      var p: PosixPermission;
      if id in permissions {
        p := permissions[id];
      } else {
        p := new PosixPermission();
      }
      var _ := p.SetOwner(owner);
      if id in permissions {
        forall k | k in permissions ensures Records()[k] == before[id := before[id].(owner := owner)][k] {
          if k != id {
            assert permissions[k] != p;
          }
        }
      }
    }

    /** `checkInode`: a missing inode passes; otherwise the owner, group and other classes are
        tried in turn and any one that grants `bits` suffices. */
    method CheckInode(user: string, groups: seq<string>, inode: Option<Inode>, bits: Bits,
                      path: string) returns (r: Outcome<Denial>)
      requires inode.Some? ==> inode.value.id in permissions
      ensures r == PermissionCheck.CheckInode(Records(), user, groups, inode, bits, path)
    {
      if inode.None? {
        return Pass;
      }
      var id := inode.value.id;
      var mode := GetMode(id);
      var owner := GetOwner(id);
      if user == owner && Imply(OwnerBits(mode), bits) {
        return Pass;
      }
      var group := GetGroup(id);
      if group in groups && Imply(GroupBits(mode), bits) {
        return Pass;
      }
      if Imply(OtherBits(mode), bits) {
        return Pass;
      }
      return Fail(Denied(user, bits, path, DisplayName(inode.value.name), owner, group, mode));
    }

    /** `checkInodeList`: bypass for privileged users, EXECUTE on every inode but the last,
        then ownership of, or the requested bits on, the last. */
    method CheckInodeList(user: string, groups: seq<string>, check: LeafCheck, path: string,
                          inodes: seq<Option<Inode>>) returns (r: Outcome<Denial>)
      requires ListCheckable(conf, Records(), user, groups, inodes)
      ensures r == PermissionCheck.CheckInodeList(conf, Records(), user, groups, check, path, inodes)
    {
      var size := |inodes|;
      if IsPrivileged(conf, user, groups) {
        return Pass;
      }
      ghost var store := Records();
      PermissionProperties.KnownPrefix(store, inodes, size - 1);
      var i := 0;
      while i < size - 1
        invariant 0 <= i <= size - 1
        invariant Known(store, inodes[..i])
        invariant CheckTraversal(store, user, groups, inodes[..i], path) == Pass
      {
        var res := CheckInode(user, groups, inodes[i], EXECUTE, path);
        PermissionProperties.KnownPrefix(store, inodes, i + 1);
        assert inodes[..i + 1][..i] == inodes[..i];
        if res.Fail? {
          assert inodes[..size - 1][..i + 1] == inodes[..i + 1];
          PermissionProperties.TraversalPrefixFail(store, user, groups, inodes[..size - 1], path, i + 1);
          return res;
        }
        i := i + 1;
      }
      assert inodes[..size - 1] == inodes[..i];
      var inode := inodes[size - 1];
      if check.RequireOwner? {
        if inode.None? {
          return Pass;
        }
        var owner := GetOwner(inode.value.id);
        if user == owner {
          return Pass;
        }
        return Fail(NotOwner(user, path));
      }
      r := CheckInode(user, groups, inode, check.bits, path);
    }

    /** `getPermissionInternal`: ALL for privileged users, NONE as soon as an ancestor refuses
        EXECUTE or when the leaf is missing, else the OR of the applicable classes. */
    method GetPermissionInternal(user: string, groups: seq<string>, path: string,
                                 inodes: seq<Option<Inode>>) returns (mode: Bits)
      requires ListCheckable(conf, Records(), user, groups, inodes)
      ensures mode == PermissionOf(conf, Records(), user, groups, path, inodes)
    {
      var size := |inodes|;
      if IsPrivileged(conf, user, groups) {
        return ALL;
      }
      ghost var store := Records();
      PermissionProperties.KnownPrefix(store, inodes, size - 1);
      var i := 0;
      while i < size - 1
        invariant 0 <= i <= size - 1
        invariant Known(store, inodes[..i])
        invariant CheckTraversal(store, user, groups, inodes[..i], path) == Pass
      {
        var res := CheckInode(user, groups, inodes[i], EXECUTE, path);
        PermissionProperties.KnownPrefix(store, inodes, i + 1);
        assert inodes[..i + 1][..i] == inodes[..i];
        if res.Fail? {
          assert inodes[..size - 1][..i + 1] == inodes[..i + 1];
          PermissionProperties.TraversalPrefixFail(store, user, groups, inodes[..size - 1], path, i + 1);
          return NONE;
        }
        i := i + 1;
      }
      assert inodes[..size - 1] == inodes[..i];
      var inode := inodes[size - 1];
      if inode.None? {
        return NONE;
      }
      mode := NONE;
      var id := inode.value.id;
      var permission := GetMode(id);
      var owner := GetOwner(id);
      if user == owner {
        mode := Or(mode, OwnerBits(permission));
      }
      var group := GetGroup(id);
      if group in groups {
        mode := Or(mode, GroupBits(permission));
      }
      mode := Or(mode, OtherBits(permission));
    }

    /** `checkPermission`. */
    method CheckPermission(lookup: GroupLookup, user: string, bits: Bits, ip: InodePath)
      returns (r: Outcome<Denial>)
      requires Checkable(conf, Records(), lookup, user, ip.inodes)
      ensures r == PermissionCheck.CheckPermission(conf, Records(), lookup, user, bits, ip)
    {
      if !conf.enabled {
        return Pass;
      }
      var inodeList := ip.inodes;
      var groups := GetGroups(lookup, user);
      if groups.Failure? {
        return Fail(groups.error);
      }
      r := CheckInodeList(user, groups.value, RequireBits(bits), ip.path, inodeList);
    }

    /** `checkParentPermission`: nothing on the root; the leaf is removed from the list when
        the whole path exists. */
    method CheckParentPermission(lookup: GroupLookup, user: string, bits: Bits, ip: InodePath)
      returns (r: Outcome<Denial>)
      requires ParentCheckable(conf, Records(), lookup, user, ip)
      ensures r == PermissionCheck.CheckParentPermission(conf, Records(), lookup, user, bits, ip)
    {
      if !conf.enabled {
        return Pass;
      }
      if IsRoot(ip.path) {
        return Pass;
      }
      var inodeList := ip.inodes;
      var groups := GetGroups(lookup, user);
      if groups.Failure? {
        return Fail(groups.error);
      }
      if ip.fullPathExists {
        inodeList := inodeList[..|inodeList| - 1];
      }
      r := CheckInodeList(user, groups.value, RequireBits(bits), ip.path, inodeList);
    }

    /** `getPermission`: a failed group lookup gives NONE rather than an error. */
    method GetPermission(lookup: GroupLookup, user: string, ip: InodePath) returns (mode: Bits)
      requires Checkable(conf, Records(), lookup, user, ip.inodes)
      ensures mode == PermissionCheck.GetPermission(conf, Records(), lookup, user, ip)
    {
      if !conf.enabled {
        return NONE;
      }
      var inodeList := ip.inodes;
      var groups := GetGroups(lookup, user);
      if groups.Failure? {
        return NONE;
      }
      mode := GetPermissionInternal(user, groups.value, ip.path, inodeList);
    }

    /** `checkSuperUser`. */
    method CheckSuperUser(lookup: GroupLookup, user: string) returns (r: Outcome<Denial>)
      ensures r == PermissionCheck.CheckSuperUser(conf, lookup, user)
    {
      var groups := GetGroups(lookup, user);
      if groups.Failure? {
        return Fail(groups.error);
      }
      if !IsPrivileged(conf, user, groups.value) {
        return Fail(NotSuperUser(user));
      }
      return Pass;
    }

    /** `checkOwner`. */
    method CheckOwner(lookup: GroupLookup, user: string, ip: InodePath) returns (r: Outcome<Denial>)
      requires lookup(user).Success? && !IsPrivileged(conf, user, lookup(user).value) ==>
                 ListCheckable(conf, Records(), user, lookup(user).value, ip.inodes)
      ensures r == PermissionCheck.CheckOwner(conf, Records(), lookup, user, ip)
    {
      var inodeList := ip.inodes;
      var groups := GetGroups(lookup, user);
      if groups.Failure? {
        return Fail(groups.error);
      }
      if IsPrivileged(conf, user, groups.value) {
        return Pass;
      }
      r := CheckInodeList(user, groups.value, RequireOwner, ip.path, inodeList);
    }

    /** `checkSetAttributePermission`. */
    method CheckSetAttributePermission(lookup: GroupLookup, user: string, ip: InodePath,
                                       superuserRequired: bool, ownerRequired: bool)
      returns (r: Outcome<Denial>)
      requires Checkable(conf, Records(), lookup, user, ip.inodes)
      ensures r == PermissionCheck.CheckSetAttributePermission(conf, Records(), lookup, user, ip,
                                                               superuserRequired, ownerRequired)
    {
      if !conf.enabled {
        return Pass;
      }
      if superuserRequired {
        r := CheckSuperUser(lookup, user);
        if r.Fail? {
          return;
        }
      }
      if ownerRequired {
        r := CheckOwner(lookup, user, ip);
        if r.Fail? {
          return;
        }
      }
      r := CheckPermission(lookup, user, WRITE, ip);
    }

    /** The store update the setters evidently intend: an id without a record gets a default
        one, which is stored. */
    method CreateIfAbsent(id: int) returns (p: PosixPermission)
      requires Valid()
      modifies this
      ensures Valid() && id in permissions && p == permissions[id]
      ensures id in old(permissions) ==> permissions == old(permissions)
      ensures id !in old(permissions) ==> fresh(p) && permissions == old(permissions)[id := p]
      ensures Records() == if id in old(permissions) then old(Records())
                         else old(Records())[id := Attr("", "", INVALID_MODE)]
    {
      if id in permissions {
        p := permissions[id];
      } else {
        p := new PosixPermission();
        permissions := permissions[id := p];
      }
    }

    /** `setMode` as evidently intended: the first mutation of an id creates its record. */
    method SetModeCreating(id: int, mode: Short)
      requires Valid()
      modifies this, if id in permissions then {permissions[id]} else {}
      ensures Valid() && id in permissions
      ensures Records() == old(Records())[id := (if id in old(permissions) then old(Records())[id]
                                             else Attr("", "", INVALID_MODE)).(mode := mode)]
    {
      var p := CreateIfAbsent(id);
      ghost var created := Records();
      var _ := p.SetMode(mode);
      forall k | k in permissions ensures Records()[k] == created[id := created[id].(mode := mode)][k] {
        if k != id {
          assert permissions[k] != p;
        }
      }
    }

    /** `setGroup` as evidently intended: the first mutation of an id creates its record. */
    method SetGroupCreating(id: int, group: string)
      requires Valid()
      modifies this, if id in permissions then {permissions[id]} else {}
      ensures Valid() && id in permissions
      ensures Records() == old(Records())[id := (if id in old(permissions) then old(Records())[id]
                                                 else Attr("", "", INVALID_MODE)).(group := group)]
    {
      var p := CreateIfAbsent(id);
      ghost var created := Records();
      var _ := p.SetGroup(group);
      forall k | k in permissions ensures Records()[k] == created[id := created[id].(group := group)][k] {
        if k != id {
          assert permissions[k] != p;
        }
      }
    }

    /** `setOwner` as evidently intended: the first mutation of an id creates its record. */
    method SetOwnerCreating(id: int, owner: string)
      requires Valid()
      modifies this, if id in permissions then {permissions[id]} else {}
      ensures Valid() && id in permissions
      ensures Records() == old(Records())[id := (if id in old(permissions) then old(Records())[id]
                                                 else Attr("", "", INVALID_MODE)).(owner := owner)]
    {
      var p := CreateIfAbsent(id);
      ghost var created := Records();
      var _ := p.SetOwner(owner);
      forall k | k in permissions ensures Records()[k] == created[id := created[id].(owner := owner)][k] {
        if k != id {
          assert permissions[k] != p;
        }
      }
    }
  }

  /** As written, `setGroup` on an id without a record stores nothing. */
  method FirstSetGroupIsLost(id: int, group: string) returns (stored: bool)
    ensures !stored
  {
    var master := new DefaultPermissionMaster(Config(true, "root", "supergroup"));
    master.SetGroup(id, group);
    stored := id in master.permissions;
  }

  /** As written, `setOwner` on an id without a record stores nothing. */
  method FirstSetOwnerIsLost(id: int, owner: string) returns (stored: bool)
    ensures !stored
  {
    var master := new DefaultPermissionMaster(Config(true, "root", "supergroup"));
    master.SetOwner(id, owner);
    stored := id in master.permissions;
  }

  /** As written, `setMode` on an id without a record stores nothing, so a following
      `getMode` of that id would dereference null. */
  method FirstSetModeIsLost(id: int, mode: Short) returns (stored: bool)
    ensures !stored
  {
    var master := new DefaultPermissionMaster(Config(true, "root", "supergroup"));
    master.SetMode(id, mode);
    stored := id in master.permissions;
  }

  /** With the correction, `setMode` then `getMode` on a new id returns the mode set. */
  method SetModeThenGetMode(id: int, mode: Short) returns (read: Short)
    ensures read == mode
  {
    var master := new DefaultPermissionMaster(Config(true, "root", "supergroup"));
    master.SetModeCreating(id, mode);
    read := master.GetMode(id);
  }

  /** With the correction, `setGroup` then `getGroup` on a new id returns the group set, and
      the rest of the record is the default. */
  method SetGroupThenGetGroup(id: int, group: string) returns (read: string, mode: Short)
    ensures read == group && mode == INVALID_MODE
  {
    var master := new DefaultPermissionMaster(Config(true, "root", "supergroup"));
    master.SetGroupCreating(id, group);
    read := master.GetGroup(id);
    mode := master.GetMode(id);
  }

  /** With the correction, `setOwner` then `getOwner` on a new id returns the owner set, and
      the rest of the record is the default. */
  method SetOwnerThenGetOwner(id: int, owner: string) returns (read: string, group: string)
    ensures read == owner && group == ""
  {
    var master := new DefaultPermissionMaster(Config(true, "root", "supergroup"));
    master.SetOwnerCreating(id, owner);
    read := master.GetOwner(id);
    group := master.GetGroup(id);
  }
}
