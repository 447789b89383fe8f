/** What the permission checker guarantees, proved about the functions of PermissionCheck. */
module PermissionProperties {
  import opened Results
  import opened Mode
  import opened PosixPermissions
  import opened PermissionCheck

  /** Every existing inode of the list grants EXECUTE to the user. */
  predicate AllTraversable(store: Store, user: string, groups: seq<string>, inodes: seq<Option<Inode>>)
    requires Known(store, inodes)
  {
    forall i :: 0 <= i < |inodes| && inodes[i].Some? ==>
      Grants(user, groups, store[inodes[i].value.id], EXECUTE)
  }

  /** The last inode passes the check the request demands of it. */
  predicate LeafAllows(store: Store, user: string, groups: seq<string>, check: LeafCheck,
                       leaf: Option<Inode>)
    requires leaf.Some? ==> leaf.value.id in store
  {
    leaf.None? ||
    match check
    case RequireOwner => user == store[leaf.value.id].owner
    case RequireBits(bits) => Grants(user, groups, store[leaf.value.id], bits)
  }

  lemma KnownPrefix(store: Store, inodes: seq<Option<Inode>>, k: nat)
    requires Known(store, inodes) && k <= |inodes|
    ensures Known(store, inodes[..k])
  {
    assert forall i :: 0 <= i < k ==> inodes[..k][i] == inodes[i];
  }

  /** The traversal passes exactly when every existing inode grants EXECUTE. */
  lemma {:induction false} TraversalPassIff(store: Store, user: string, groups: seq<string>,
                                            inodes: seq<Option<Inode>>, path: string)
    requires Known(store, inodes)
    ensures CheckTraversal(store, user, groups, inodes, path).Pass?
            <==> AllTraversable(store, user, groups, inodes)
  {
    if inodes != [] {
      var n := |inodes|;
      var p := inodes[..n - 1];
      KnownPrefix(store, inodes, n - 1);
      TraversalPassIff(store, user, groups, p, path);
      assert forall i :: 0 <= i < n - 1 ==> p[i] == inodes[i];
    }
  }

  /** A failed traversal reports the first inode that denies EXECUTE, with its record. */
  lemma {:induction false} TraversalFirstDenial(store: Store, user: string, groups: seq<string>,
                                                inodes: seq<Option<Inode>>, path: string)
    requires Known(store, inodes)
    requires CheckTraversal(store, user, groups, inodes, path).Fail?
    ensures exists k ::
              && 0 <= k < |inodes| && inodes[k].Some?
              && Known(store, inodes[..k]) && AllTraversable(store, user, groups, inodes[..k])
              && !Grants(user, groups, store[inodes[k].value.id], EXECUTE)
              && CheckTraversal(store, user, groups, inodes, path)
                 == CheckInode(store, user, groups, inodes[k], EXECUTE, path)
  {
    var n := |inodes|;
    var p := inodes[..n - 1];
    KnownPrefix(store, inodes, n - 1);
    if CheckTraversal(store, user, groups, p, path).Fail? {
      TraversalFirstDenial(store, user, groups, p, path);
      var k :| 0 <= k < |p| && p[k].Some? && Known(store, p[..k]) &&
        AllTraversable(store, user, groups, p[..k]) &&
        !Grants(user, groups, store[p[k].value.id], EXECUTE) &&
        CheckTraversal(store, user, groups, p, path) == CheckInode(store, user, groups, p[k], EXECUTE, path);
      assert p[..k] == inodes[..k];
      assert p[k] == inodes[k];
    } else {
      TraversalPassIff(store, user, groups, p, path);
      assert inodes[..n - 1] == p;
    }
  }

  /** Once a prefix of the traversal fails, the whole traversal fails the same way. */
  lemma {:induction false} TraversalPrefixFail(store: Store, user: string, groups: seq<string>,
                                               inodes: seq<Option<Inode>>, path: string, k: nat)
    requires Known(store, inodes) && k <= |inodes|
    requires Known(store, inodes[..k])
    requires CheckTraversal(store, user, groups, inodes[..k], path).Fail?
    ensures CheckTraversal(store, user, groups, inodes, path)
            == CheckTraversal(store, user, groups, inodes[..k], path)
    decreases |inodes|
  {
    if k == |inodes| {
      assert inodes[..k] == inodes;
    } else {
      var p := inodes[..|inodes| - 1];
      KnownPrefix(store, inodes, |inodes| - 1);
      assert p[..k] == inodes[..k];
      TraversalPrefixFail(store, user, groups, p, path, k);
    }
  }

  /** `checkInodeList` for an unprivileged user passes exactly when every inode but the last
      grants EXECUTE and the last passes its own check. */
  lemma InodeListPassIff(conf: Config, store: Store, user: string, groups: seq<string>,
                         check: LeafCheck, path: string, inodes: seq<Option<Inode>>)
    requires ListCheckable(conf, store, user, groups, inodes)
    requires !IsPrivileged(conf, user, groups)
    ensures Known(store, inodes[..|inodes| - 1])
    ensures CheckInodeList(conf, store, user, groups, check, path, inodes).Pass? <==>
      AllTraversable(store, user, groups, inodes[..|inodes| - 1]) &&
      LeafAllows(store, user, groups, check, inodes[|inodes| - 1])
  {
    KnownPrefix(store, inodes, |inodes| - 1);
    TraversalPassIff(store, user, groups, inodes[..|inodes| - 1], path);
  }

  /** With checking disabled, the checks pass and `getPermission` answers NONE. */
  lemma DisabledAllowsEverything(conf: Config, store: Store, lookup: GroupLookup, user: string,
                                 bits: Bits, ip: InodePath, superuserRequired: bool, ownerRequired: bool)
    requires !conf.enabled
    ensures CheckPermission(conf, store, lookup, user, bits, ip) == Pass
    ensures CheckParentPermission(conf, store, lookup, user, bits, ip) == Pass
    ensures CheckSetAttributePermission(conf, store, lookup, user, ip, superuserRequired, ownerRequired) == Pass
    ensures GetPermission(conf, store, lookup, user, ip) == NONE
  {
  }

  /** A user whose group lookup fails is denied with that failure, and gets NONE. */
  lemma GroupLookupFailureDenies(conf: Config, store: Store, lookup: GroupLookup, user: string,
                                 bits: Bits, ip: InodePath, superuserRequired: bool, ownerRequired: bool)
    requires conf.enabled && lookup(user).Failure?
    ensures CheckPermission(conf, store, lookup, user, bits, ip) == Fail(GroupLookupFailed(lookup(user).error))
    ensures !IsRoot(ip.path) ==>
      CheckParentPermission(conf, store, lookup, user, bits, ip) == Fail(GroupLookupFailed(lookup(user).error))
    ensures CheckSetAttributePermission(conf, store, lookup, user, ip, superuserRequired, ownerRequired)
            == Fail(GroupLookupFailed(lookup(user).error))
    ensures GetPermission(conf, store, lookup, user, ip) == NONE
  {
  }

  /** The super user and super-group members pass every check whatever the records say. */
  lemma PrivilegedAllowsEverything(conf: Config, store: Store, lookup: GroupLookup, user: string,
                                   bits: Bits, ip: InodePath, superuserRequired: bool, ownerRequired: bool)
    requires conf.enabled && lookup(user).Success? && IsPrivileged(conf, user, lookup(user).value)
    requires Checkable(conf, store, lookup, user, ip.inodes)
    requires ParentCheckable(conf, store, lookup, user, ip)
    ensures CheckPermission(conf, store, lookup, user, bits, ip) == Pass
    ensures CheckParentPermission(conf, store, lookup, user, bits, ip) == Pass
    ensures CheckSetAttributePermission(conf, store, lookup, user, ip, superuserRequired, ownerRequired) == Pass
    ensures GetPermission(conf, store, lookup, user, ip) == ALL
  {
  }

  /** `checkPermission` for an unprivileged user: every inode but the last grants EXECUTE and
      the last, if it exists, grants the requested bits. */
  lemma CheckPermissionIff(conf: Config, store: Store, lookup: GroupLookup, user: string,
                           bits: Bits, ip: InodePath)
    requires conf.enabled && lookup(user).Success? && !IsPrivileged(conf, user, lookup(user).value)
    requires Checkable(conf, store, lookup, user, ip.inodes)
    ensures Known(store, ip.inodes[..|ip.inodes| - 1])
    ensures CheckPermission(conf, store, lookup, user, bits, ip).Pass? <==>
      && AllTraversable(store, user, lookup(user).value, ip.inodes[..|ip.inodes| - 1])
      && (ip.inodes[|ip.inodes| - 1].None? ||
          Grants(user, lookup(user).value, store[ip.inodes[|ip.inodes| - 1].value.id], bits))
  {
    InodeListPassIff(conf, store, user, lookup(user).value, RequireBits(bits), ip.path, ip.inodes);
  }

  /** A denial by `checkPermission` names the first inode that refuses, with that inode's
      owner, group and mode, and the bits it was asked for (EXECUTE for an ancestor). */
  lemma CheckPermissionDenialNamesInode(conf: Config, store: Store, lookup: GroupLookup, user: string,
                                        bits: Bits, ip: InodePath)
    requires conf.enabled && lookup(user).Success? && !IsPrivileged(conf, user, lookup(user).value)
    requires Checkable(conf, store, lookup, user, ip.inodes)
    requires CheckPermission(conf, store, lookup, user, bits, ip).Fail?
    ensures exists k ::
              && 0 <= k < |ip.inodes| && ip.inodes[k].Some?
              && var a := store[ip.inodes[k].value.id];
                 CheckPermission(conf, store, lookup, user, bits, ip).error ==
                 Denied(user, if k < |ip.inodes| - 1 then EXECUTE else bits, ip.path,
                        DisplayName(ip.inodes[k].value.name), a.owner, a.group, a.mode)
  {
    var groups := lookup(user).value;
    var inodes := ip.inodes;
    var n := |inodes|;
    var p := inodes[..n - 1];
    KnownPrefix(store, inodes, n - 1);
    if CheckTraversal(store, user, groups, p, ip.path).Fail? {
      TraversalFirstDenial(store, user, groups, p, ip.path);
      var k :| 0 <= k < |p| && p[k].Some? &&
        CheckTraversal(store, user, groups, p, ip.path) == CheckInode(store, user, groups, p[k], EXECUTE, ip.path);
      assert p[k] == inodes[k];
    } else {
      assert inodes[n - 1].Some?;
    }
  }

  /** `checkParentPermission` on the root passes without consulting anything. */
  lemma ParentPermissionOfRoot(conf: Config, store: Store, lookup: GroupLookup, user: string,
                               bits: Bits, ip: InodePath)
    requires IsRoot(ip.path)
    ensures CheckParentPermission(conf, store, lookup, user, bits, ip) == Pass
  {
  }

  /** Elsewhere it is `checkPermission` on the list without its leaf when the whole path
      exists, and on the list as it is otherwise. */
  lemma ParentPermissionChecksParent(conf: Config, store: Store, lookup: GroupLookup, user: string,
                                     bits: Bits, ip: InodePath)
    requires conf.enabled && !IsRoot(ip.path)
    requires ParentCheckable(conf, store, lookup, user, ip)
    requires ip.fullPathExists ==> |ip.inodes| > 0
    ensures ParentTarget(ip) == if ip.fullPathExists then ip.inodes[..|ip.inodes| - 1] else ip.inodes
    ensures Checkable(conf, store, lookup, user, ParentTarget(ip))
    ensures CheckParentPermission(conf, store, lookup, user, bits, ip)
         == CheckPermission(conf, store, lookup, user, bits, ip.(inodes := ParentTarget(ip)))
  {
  }

  /** `checkSetAttributePermission` for an unprivileged user: it passes exactly when the super
      user is not required, ownership holds if it is required, and WRITE is granted. */
  lemma SetAttributeIff(conf: Config, store: Store, lookup: GroupLookup, user: string,
                        ip: InodePath, superuserRequired: bool, ownerRequired: bool)
    requires conf.enabled && lookup(user).Success? && !IsPrivileged(conf, user, lookup(user).value)
    requires Checkable(conf, store, lookup, user, ip.inodes)
    ensures Known(store, ip.inodes[..|ip.inodes| - 1])
    ensures CheckSetAttributePermission(conf, store, lookup, user, ip, superuserRequired, ownerRequired).Pass? <==>
      && !superuserRequired
      && (ownerRequired ==>
            AllTraversable(store, user, lookup(user).value, ip.inodes[..|ip.inodes| - 1]) &&
            LeafAllows(store, user, lookup(user).value, RequireOwner, ip.inodes[|ip.inodes| - 1]))
      && CheckPermission(conf, store, lookup, user, WRITE, ip).Pass?
  {
    InodeListPassIff(conf, store, user, lookup(user).value, RequireOwner, ip.path, ip.inodes);
  }

  /** The three checks run in order and the first denial is the one reported. */
  lemma SetAttributeFirstDenial(conf: Config, store: Store, lookup: GroupLookup, user: string,
                                ip: InodePath, superuserRequired: bool, ownerRequired: bool)
    requires conf.enabled && lookup(user).Success? && !IsPrivileged(conf, user, lookup(user).value)
    requires Checkable(conf, store, lookup, user, ip.inodes)
    ensures superuserRequired ==>
      CheckSetAttributePermission(conf, store, lookup, user, ip, superuserRequired, ownerRequired)
        == Fail(NotSuperUser(user))
    ensures !superuserRequired && ownerRequired && CheckOwner(conf, store, lookup, user, ip).Fail? ==>
      CheckSetAttributePermission(conf, store, lookup, user, ip, superuserRequired, ownerRequired)
        == CheckOwner(conf, store, lookup, user, ip)
    ensures !superuserRequired && (!ownerRequired || CheckOwner(conf, store, lookup, user, ip).Pass?) ==>
      CheckSetAttributePermission(conf, store, lookup, user, ip, superuserRequired, ownerRequired)
        == CheckPermission(conf, store, lookup, user, WRITE, ip)
  {
  }

  /** Which bits the leaf's union holds: a bit is in it iff some applicable class has it. */
  lemma LeafPermissionMembers(user: string, groups: seq<string>, a: Attr, x: Bit)
    ensures x in LeafPermission(user, groups, a) <==>
      || (user == a.owner && x in OwnerBits(a.mode))
      || (a.group in groups && x in GroupBits(a.mode))
      || x in OtherBits(a.mode)
  {
  }

  /** `getPermission` for an unprivileged user: NONE when an ancestor refuses EXECUTE or the
      leaf does not exist, otherwise the union of the leaf's applicable classes. */
  lemma GetPermissionValue(conf: Config, store: Store, lookup: GroupLookup, user: string, ip: InodePath)
    requires conf.enabled && lookup(user).Success? && !IsPrivileged(conf, user, lookup(user).value)
    requires Checkable(conf, store, lookup, user, ip.inodes)
    ensures Known(store, ip.inodes[..|ip.inodes| - 1])
    ensures GetPermission(conf, store, lookup, user, ip) ==
      if !AllTraversable(store, user, lookup(user).value, ip.inodes[..|ip.inodes| - 1])
         || ip.inodes[|ip.inodes| - 1].None?
      then NONE
      else LeafPermission(user, lookup(user).value, store[ip.inodes[|ip.inodes| - 1].value.id])
  {
    KnownPrefix(store, ip.inodes, |ip.inodes| - 1);
    TraversalPassIff(store, user, lookup(user).value, ip.inodes[..|ip.inodes| - 1], ip.path);
  }

  /** Whatever `checkPermission` allows on an existing leaf lies within `getPermission`. */
  lemma CheckedBitsWithinPermission(conf: Config, store: Store, lookup: GroupLookup, user: string,
                                    bits: Bits, ip: InodePath)
    requires conf.enabled && lookup(user).Success?
    requires Checkable(conf, store, lookup, user, ip.inodes)
    requires ip.inodes[|ip.inodes| - 1].Some?
    requires CheckPermission(conf, store, lookup, user, bits, ip).Pass?
    ensures Imply(GetPermission(conf, store, lookup, user, ip), bits)
  {
    var groups := lookup(user).value;
    if IsPrivileged(conf, user, groups) {
      forall x | x in bits ensures x in ALL {
        match x
        case Read =>
        case Write =>
        case Execute =>
      }
    } else {
      CheckPermissionIff(conf, store, lookup, user, bits, ip);
      GetPermissionValue(conf, store, lookup, user, ip);
    }
  }

  /** The converse fails: the union can cover a request that no single class grants, as when
      the owner may read, everyone may write, and the owner asks to read and write. */
  lemma PermissionExceedsCheck()
    ensures var conf := Config(true, "root", "supergroup");
            var lookup: GroupLookup := u => Success([]);
            var ip := InodePath("/f", [Some(Inode(1, "f"))], true);
            var store := map[1 := Attr("alice", "staff", Pack(READ, NONE, WRITE))];
            && Imply(GetPermission(conf, store, lookup, "alice", ip), READ + WRITE)
            && CheckPermission(conf, store, lookup, "alice", READ + WRITE, ip).Fail?
  {
    ExtractPack(READ, NONE, WRITE);
  }

  /** The grant rule is a disjunction, not POSIX's first matching class: an owner whose owner
      class grants nothing is still granted what the other class grants. */
  lemma OwnerFallsThroughToOther(user: string, groups: seq<string>, group: string, bits: Bits)
    ensures Grants(user, groups, Attr(user, group, Pack(NONE, NONE, ALL)), bits)
  {
    ExtractPack(NONE, NONE, ALL);
    forall x | x in bits ensures x in ALL {
      match x
      case Read =>
      case Write =>
      case Execute =>
    }
  }

  /** A member of the file's group whose group class lacks WRITE, with nothing for others,
      is refused WRITE (mode 0750). */
  lemma GroupWithoutWriteIsDenied(user: string, owner: string, group: string)
    requires user != owner
    ensures !Grants(user, [group], Attr(owner, group, Pack(ALL, READ + EXECUTE, NONE)), WRITE)
  {
    ExtractPack(ALL, READ + EXECUTE, NONE);
  }
}
