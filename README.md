# Alluxio permission master and under-file-system cache, modelled in Dafny

This project models two sequential cores of Alluxio:

* **The permission master** (`DefaultPermissionMaster` and its record `PosixPermission`). It keeps a
  map from file id to an (owner, group, mode) record, with getters and setters. It decides whether
  the client user may act on an inode path, given as a list of inodes from root to leaf where an
  inode may be missing:
  * `checkPermission`: every inode but the last must grant EXECUTE, and the last must grant the
    requested bits.
  * `checkParentPermission`: the same check on the parent.
  * `checkSetAttributePermission`: super user, then owner, then WRITE.
  * `getPermission`: never throws and returns the bits the user holds.
* **The under-file-system cache** (`UnderFileSystem.Factory`, its `Cache` and `Key`). It maps a key
  to one shared instance. The key is the URI's scheme and authority, lower-cased. On a miss it
  builds an instance and inserts it with `putIfAbsent`. If it loses that race, it closes its own
  candidate and returns the winner.

Modules:

* `Results`: Option, Result and Outcome.
* `JavaHash`: `String.hashCode` and `Objects.hashCode` in 32-bit arithmetic.
* `Mode`: `Mode.Bits` as a subset of {read, write, execute}, and the 16-bit mode with the usual
  owner/group/other layout.
* `PosixPermissions`: the record class.
* `PermissionCheck`: the checker's decisions as functions of explicit inputs.
* `PermissionProperties`: the checker's guarantees, proved about those functions.
* `PermissionMasters`: the `DefaultPermissionMaster` class. Its loops and store reads are proved to
  compute the `PermissionCheck` functions.
* `UfsKeys`: the cache key.
* `UfsCache`: the cache and factory classes.

The checker's hidden inputs are explicit parameters: the enabled flag, the super user and the super
group (`Config`), the client user, and the group lookup. The group lookup is a function that may
fail with an I/O message.

Behaviour that follows the code rather than the POSIX reading:

* An inode grants bits when ANY applicable class grants them all: the owner class if the user is the
  owner, the group class if the user is in the group, and the other class always. It is not "first
  matching class" (`OwnerFallsThroughToOther`).
* `getPermission` returns the union of the applicable classes, so it can exceed what
  `checkPermission` allows (`PermissionExceedsCheck`).
* With checking disabled, `getPermission` returns NONE.
* The store's getters do not default: they require a record.
* A setter on an id without a record stores nothing (see Findings).
* `Constants.INVALID_MODE` is taken to be -1. With the 3-bit layout, a default record then grants
  every bit to every class (`InvalidModeGrantsAll`).

## Model

| member | source | states |
|---|---|---|
| `PosixPermissions.PosixPermission.constructor` | core/server/master/src/main/java/alluxio/master/permission/PosixPermission.java:12-16 | a new record has owner "", group "" and mode INVALID_MODE |
| `PosixPermissions.PosixPermission.SetGroup` | core/server/master/src/main/java/alluxio/master/permission/PosixPermission.java:43-46 | the group becomes g, owner and mode are unchanged, and the record itself is returned |
| `PosixPermissions.PosixPermission.SetMode` | core/server/master/src/main/java/alluxio/master/permission/PosixPermission.java:52-55 | the mode becomes m, owner and group are unchanged, and the record itself is returned |
| `PosixPermissions.PosixPermission.SetOwner` | core/server/master/src/main/java/alluxio/master/permission/PosixPermission.java:61-64 | the owner becomes o, group and mode are unchanged, and the record itself is returned |
| `PosixPermissions.PosixPermission.Equals` | core/server/master/src/main/java/alluxio/master/permission/PosixPermission.java:67-79 | equals holds iff the other record is non-null with the same group, owner and mode; the identity shortcut agrees with this |
| `PosixPermissions.EqualsReflexive` | core/server/master/src/main/java/alluxio/master/permission/PosixPermission.java:67-79 | every record equals itself |
| `PosixPermissions.EqualsSymmetric` | core/server/master/src/main/java/alluxio/master/permission/PosixPermission.java:67-79 | equals is symmetric |
| `PosixPermissions.PosixPermission.HashCode` | core/server/master/src/main/java/alluxio/master/permission/PosixPermission.java:82-84 | the hash is Objects.hashCode(group, mode, owner), a Java int |
| `PosixPermissions.EqualsImpliesEqualHash` | core/server/master/src/main/java/alluxio/master/permission/PosixPermission.java:82-84 | equal records have equal hash codes |
| `JavaHash.StringHashIsPolynomial` | core/common/src/main/java/alluxio/underfs/UnderFileSystem.java:108-111 | the step-by-step wrapped string hash that both hash codes use equals the 31-polynomial over the characters, wrapped once to 32 bits |
| `Mode.ExtractPack` | core/server/master/src/main/java/alluxio/master/permission/DefaultPermissionMaster.java:330-336 | extracting the owner, group and other bits of a packed mode returns the three bit sets packed |
| `Mode.InvalidModeGrantsAll` | core/server/master/src/main/java/alluxio/master/permission/PosixPermission.java:14 | the default record's mode yields ALL for the owner, group and other classes |
| `PermissionMasters.DefaultPermissionMaster.constructor` | core/server/master/src/main/java/alluxio/master/permission/DefaultPermissionMaster.java:64-74 | the master starts with an empty store and the given configuration |
| `PermissionMasters.DefaultPermissionMaster.GetGroup` | core/server/master/src/main/java/alluxio/master/permission/DefaultPermissionMaster.java:95-98 | requires a record for the id (the source dereferences it unchecked) and returns its group |
| `PermissionMasters.DefaultPermissionMaster.GetMode` | core/server/master/src/main/java/alluxio/master/permission/DefaultPermissionMaster.java:100-103 | requires a record for the id and returns its mode |
| `PermissionMasters.DefaultPermissionMaster.GetOwner` | core/server/master/src/main/java/alluxio/master/permission/DefaultPermissionMaster.java:105-108 | requires a record for the id and returns its owner |
| `PermissionMasters.DefaultPermissionMaster.SetGroup` | core/server/master/src/main/java/alluxio/master/permission/DefaultPermissionMaster.java:110-118 | on a present id only that record's group changes; on an absent id the store is unchanged |
| `PermissionMasters.DefaultPermissionMaster.SetMode` | core/server/master/src/main/java/alluxio/master/permission/DefaultPermissionMaster.java:120-128 | on a present id only that record's mode changes; on an absent id the store is unchanged |
| `PermissionMasters.DefaultPermissionMaster.SetOwner` | core/server/master/src/main/java/alluxio/master/permission/DefaultPermissionMaster.java:130-138 | on a present id only that record's owner changes; on an absent id the store is unchanged |
| `PermissionMasters.DefaultPermissionMaster.CheckInode` | core/server/master/src/main/java/alluxio/master/permission/DefaultPermissionMaster.java:323-341 | reading the record through the getters, it returns the decision of the pure `CheckInode` on the store |
| `PermissionMasters.DefaultPermissionMaster.CheckInodeList` | core/server/master/src/main/java/alluxio/master/permission/DefaultPermissionMaster.java:286-311 | on a non-empty list, the loop over the ancestors plus the leaf check returns the first denial of the traversal, as the spec function states |
| `PermissionMasters.DefaultPermissionMaster.GetPermissionInternal` | core/server/master/src/main/java/alluxio/master/permission/DefaultPermissionMaster.java:352-388 | the loop that maps an ancestor's denial to NONE and the OR accumulator together compute `PermissionOf` |
| `PermissionMasters.DefaultPermissionMaster.CheckPermission` | core/server/master/src/main/java/alluxio/master/permission/DefaultPermissionMaster.java:167-182 | equals the spec function `CheckPermission` on the current store |
| `PermissionMasters.DefaultPermissionMaster.CheckParentPermission` | core/server/master/src/main/java/alluxio/master/permission/DefaultPermissionMaster.java:140-165 | dropping the leaf from the inode list when the full path exists, then checking the rest, computes the spec function `CheckParentPermission` |
| `PermissionMasters.DefaultPermissionMaster.GetPermission` | core/server/master/src/main/java/alluxio/master/permission/DefaultPermissionMaster.java:184-200 | equals the spec function `GetPermission`; a failed group lookup gives NONE, not an error |
| `PermissionMasters.DefaultPermissionMaster.CheckSuperUser` | core/server/master/src/main/java/alluxio/master/permission/DefaultPermissionMaster.java:262-270 | equals the spec function `CheckSuperUser` |
| `PermissionMasters.DefaultPermissionMaster.CheckOwner` | core/server/master/src/main/java/alluxio/master/permission/DefaultPermissionMaster.java:241-255 | equals the spec function `CheckOwner` |
| `PermissionMasters.DefaultPermissionMaster.CheckSetAttributePermission` | core/server/master/src/main/java/alluxio/master/permission/DefaultPermissionMaster.java:202-218 | running the three checks in order equals the spec function `CheckSetAttributePermission` |
| `PermissionMasters.DefaultPermissionMaster.CreateIfAbsent` | core/server/master/src/main/java/alluxio/master/permission/DefaultPermissionMaster.java:112-115 | correction: an absent id gets a fresh default record and that record is stored; a present id is left as it is |
| `PermissionMasters.DefaultPermissionMaster.SetModeCreating` | core/server/master/src/main/java/alluxio/master/permission/DefaultPermissionMaster.java:120-128 | correction: afterwards the id has a record with the new mode, and its other fields are the old or default ones |
| `PermissionMasters.DefaultPermissionMaster.SetGroupCreating` | core/server/master/src/main/java/alluxio/master/permission/DefaultPermissionMaster.java:110-118 | correction: afterwards the id has a record with the new group, and its other fields are the old or default ones |
| `PermissionMasters.DefaultPermissionMaster.SetOwnerCreating` | core/server/master/src/main/java/alluxio/master/permission/DefaultPermissionMaster.java:130-138 | correction: afterwards the id has a record with the new owner, and its other fields are the old or default ones |
| `PermissionMasters.FirstSetModeIsLost` | core/server/master/src/main/java/alluxio/master/permission/DefaultPermissionMaster.java:120-128 | as written, setMode on an empty store leaves the id without a record |
| `PermissionMasters.SetModeThenGetMode` | core/server/master/src/main/java/alluxio/master/permission/DefaultPermissionMaster.java:120-128 | with the correction, getMode after setMode on a new id returns the mode set |
| `PermissionMasters.FirstSetGroupIsLost` | core/server/master/src/main/java/alluxio/master/permission/DefaultPermissionMaster.java:110-118 | as written, setGroup on an empty store leaves the id without a record |
| `PermissionMasters.SetGroupThenGetGroup` | core/server/master/src/main/java/alluxio/master/permission/DefaultPermissionMaster.java:110-118 | with the correction, getGroup after setGroup on a new id returns the group set, and the mode is the default |
| `PermissionMasters.FirstSetOwnerIsLost` | core/server/master/src/main/java/alluxio/master/permission/DefaultPermissionMaster.java:130-138 | as written, setOwner on an empty store leaves the id without a record |
| `PermissionMasters.SetOwnerThenGetOwner` | core/server/master/src/main/java/alluxio/master/permission/DefaultPermissionMaster.java:130-138 | with the correction, getOwner after setOwner on a new id returns the owner set, and the group is the default |
| `PermissionCheck.GetGroups` | core/server/master/src/main/java/alluxio/master/permission/DefaultPermissionMaster.java:225-232 | the lookup succeeds iff the user's groups are returned unchanged; a lookup failure becomes an access-control denial carrying its reason |
| `PermissionCheck.IsPrivileged` | core/server/master/src/main/java/alluxio/master/permission/DefaultPermissionMaster.java:390-392 | privileged iff the user is the configured super user or the super group occurs somewhere in the user's group list |
| `PermissionCheck.DisplayName` | core/server/master/src/main/java/alluxio/master/permission/DefaultPermissionMaster.java:398 | a denial never names the failing inode "": the root's empty name prints as "/", and other names print as they are |
| `PermissionProperties.TraversalPassIff` | core/server/master/src/main/java/alluxio/master/permission/DefaultPermissionMaster.java:297-300 | the ancestor traversal passes iff every existing ancestor grants EXECUTE |
| `PermissionProperties.TraversalFirstDenial` | core/server/master/src/main/java/alluxio/master/permission/DefaultPermissionMaster.java:298-300 | a failed traversal reports the first ancestor that refuses EXECUTE; all ancestors before it grant EXECUTE |
| `PermissionProperties.InodeListPassIff` | core/server/master/src/main/java/alluxio/master/permission/DefaultPermissionMaster.java:286-311 | for an unprivileged user, checkInodeList passes iff all ancestors grant EXECUTE and the leaf is missing, or is owned by the user, or grants the bits (as requested) |
| `PermissionProperties.DisabledAllowsEverything` | core/server/master/src/main/java/alluxio/master/permission/DefaultPermissionMaster.java:140-207 | with checking disabled, checkPermission, checkParentPermission and checkSetAttributePermission pass and getPermission is NONE |
| `PermissionProperties.GroupLookupFailureDenies` | core/server/master/src/main/java/alluxio/master/permission/DefaultPermissionMaster.java:225-232 | a failing group lookup makes every check fail with that failure and getPermission return NONE |
| `PermissionProperties.PrivilegedAllowsEverything` | core/server/master/src/main/java/alluxio/master/permission/DefaultPermissionMaster.java:390-392 | the super user or a super-group member passes every check and gets ALL, whatever the records hold |
| `PermissionProperties.CheckPermissionIff` | core/server/master/src/main/java/alluxio/master/permission/DefaultPermissionMaster.java:298-340 | for an unprivileged user, checkPermission passes iff every existing ancestor grants EXECUTE and the leaf is missing or grants the requested bits |
| `PermissionProperties.CheckPermissionDenialNamesInode` | core/server/master/src/main/java/alluxio/master/permission/DefaultPermissionMaster.java:323-341 | a denial names an existing inode with its owner, group and mode, and the bits asked of it: EXECUTE for an ancestor, the request for the leaf |
| `PermissionProperties.ParentPermissionOfRoot` | core/server/master/src/main/java/alluxio/master/permission/DefaultPermissionMaster.java:147-150 | on the root path checkParentPermission passes for any store and any group lookup |
| `PermissionProperties.ParentPermissionChecksParent` | core/server/master/src/main/java/alluxio/master/permission/DefaultPermissionMaster.java:160-164 | elsewhere it is checkPermission on the list without its leaf when the full path exists, and on the list as it is otherwise |
| `PermissionProperties.SetAttributeIff` | core/server/master/src/main/java/alluxio/master/permission/DefaultPermissionMaster.java:202-218 | for an unprivileged user, the check passes iff the super user is not required, ownership (with EXECUTE on the ancestors) holds when required, and WRITE is granted |
| `PermissionProperties.SetAttributeFirstDenial` | core/server/master/src/main/java/alluxio/master/permission/DefaultPermissionMaster.java:209-217 | the super-user, owner and WRITE checks run in that order, and the first denial is the one reported |
| `PermissionProperties.LeafPermissionMembers` | core/server/master/src/main/java/alluxio/master/permission/DefaultPermissionMaster.java:377-387 | a bit is in the leaf's permission iff the owner class (for the owner), the group class (for a member) or the other class has it |
| `PermissionProperties.GetPermissionValue` | core/server/master/src/main/java/alluxio/master/permission/DefaultPermissionMaster.java:352-388 | for an unprivileged user, getPermission is NONE if an ancestor refuses EXECUTE or the leaf is missing, and otherwise the union of the leaf's applicable classes |
| `PermissionProperties.CheckedBitsWithinPermission` | core/server/master/src/main/java/alluxio/master/permission/DefaultPermissionMaster.java:377-387 | bits that checkPermission allows on an existing leaf are contained in getPermission |
| `PermissionProperties.PermissionExceedsCheck` | core/server/master/src/main/java/alluxio/master/permission/DefaultPermissionMaster.java:328-340 | the converse fails: an owner who may read, on a file everyone may write, gets read+write from getPermission but is refused read+write by checkPermission |
| `PermissionProperties.OwnerFallsThroughToOther` | core/server/master/src/main/java/alluxio/master/permission/DefaultPermissionMaster.java:330-338 | an owner whose owner class grants nothing is still granted whatever the other class grants |
| `PermissionProperties.GroupWithoutWriteIsDenied` | core/server/master/src/main/java/alluxio/master/permission/DefaultPermissionMaster.java:333-339 | a group member who is not the owner is refused WRITE under mode 0750 |
| `UfsKeys.KeyOf` | core/common/src/main/java/alluxio/underfs/UnderFileSystem.java:103-106 | the key's scheme and authority are lower-case; each is "" when the URI lacks that part and otherwise equals the URI's part up to letter case |
| `UfsKeys.LowerEqualIff` | core/common/src/main/java/alluxio/underfs/UnderFileSystem.java:104-105 | two strings lower-case alike iff they differ only in letter case |
| `UfsKeys.NormalizedEqualIff` | core/common/src/main/java/alluxio/underfs/UnderFileSystem.java:104-105 | two present URI parts give the same key part iff they differ only in letter case |
| `UfsKeys.KeyIgnoresPathAndCase` | core/common/src/main/java/alluxio/underfs/UnderFileSystem.java:103-106 | URIs whose scheme and authority differ only in case, whatever their paths, have equal keys |
| `UfsKeys.KeyEqualsIsEquality` | core/common/src/main/java/alluxio/underfs/UnderFileSystem.java:113-126 | Key.equals holds iff scheme and authority are both equal |
| `UfsKeys.KeyHash` | core/common/src/main/java/alluxio/underfs/UnderFileSystem.java:108-111 | the hash is Objects.hashCode(scheme, authority), a Java int |
| `UfsKeys.KeyString` | core/common/src/main/java/alluxio/underfs/UnderFileSystem.java:128-131 | toString is the scheme, then "://", then the authority |
| `UfsKeys.KeyStringInjective` | core/common/src/main/java/alluxio/underfs/UnderFileSystem.java:128-131 | for colon-free schemes, as URI schemes are, the printed key determines the key |
| `UfsCache.Cache.constructor` | core/common/src/main/java/alluxio/underfs/UnderFileSystem.java:59-62 | the cache starts empty |
| `UfsCache.Cache.PutIfAbsent` | core/common/src/main/java/alluxio/underfs/UnderFileSystem.java:79 | stores the instance only if the key is absent, and returns the previous entry |
| `UfsCache.Cache.Get` | core/common/src/main/java/alluxio/underfs/UnderFileSystem.java:72-89 | a hit returns the cached instance and builds nothing. A miss builds exactly one instance, which is stored and returned. If a competitor's insert got there first, that entry stays, the candidate is closed, and the winner (or the close failure) is returned. Other keys never change, and no cached instance is closed |
| `UfsCache.Cache.Clear` | core/common/src/main/java/alluxio/underfs/UnderFileSystem.java:91-93 | the map becomes empty and no instance is closed |
| `UfsCache.Factory.constructor` | core/common/src/main/java/alluxio/underfs/UnderFileSystem.java:47 | the factory holds one fresh, empty cache |
| `UfsCache.Factory.Get` | core/common/src/main/java/alluxio/underfs/UnderFileSystem.java:147-162 | a null path is refused without touching the cache. Otherwise the cache's outcomes are passed on: a hit returns the cached instance; a create failure changes nothing; a miss builds one instance, stored and returned; after a competitor's insert, the competitor is kept, the candidate closed, and the competitor or the close failure returned. Other keys never change |
| `UfsCache.Factory.ClearCache` | core/common/src/main/java/alluxio/underfs/UnderFileSystem.java:137-139 | empties the cache without closing any instance |
| `UfsCache.SameKeySharesInstance` | core/common/src/main/java/alluxio/underfs/UnderFileSystem.java:73-77 | two URIs with the same key, with no failures, get the very same instance |
| `UfsCache.RaceConvergesOnOneInstance` | core/common/src/main/java/alluxio/underfs/UnderFileSystem.java:78-88 | when a competitor's insert lands between lookup and insert, the loser and every later caller get the competitor's instance |

## Left out

- Journal, Thrift services, executor and `AbstractMaster` lifecycle (`getName`, `processJournalEntry`, `getJournalEntryIterator`, `getServices`): persistence and RPC, with no permission logic.
- Concurrency: per-record atomicity and real interleavings are not modelled. The one race that matters, a competing `putIfAbsent` on the cache, is modelled as an input to `Cache.Get`.
- `AuthenticatedClientUser.getClientUser`, `CommonUtils.getGroups` and `Configuration` reads are not modelled. They become the `user` parameter, a `GroupLookup` function parameter, and a `Config` value.
- The source calls `getGroups` once per sub-check, so `checkSetAttributePermission` may look the user up as many as three times (lines 265, 248 and 179 of `DefaultPermissionMaster.java`). Because `GroupLookup` is a pure function, the model assumes every one of those lookups returns the same answer. A lookup whose answer changes between calls is not modelled.
- `LockedInodePath` and `Inode` are not modelled: an inode path is a path string, a list of optional (id, name) inodes and the full-path-exists flag.
- `PathUtils.isRoot` is `path == "/"`. Path cleaning and its `InvalidPathException` are not modelled.
- The `Mode` class is not part of this model. `Mode.Bits` is a set of bits, and the extract functions assume the 3-bit owner/group/other layout. `Constants.INVALID_MODE` is taken to be -1.
- Denials carry structured data (user, bits, path, failing inode's display name, owner, group, mode) instead of the exact message text. `Mode` printing is left out.
- `PosixPermission.toStringHelper`: debug printing only.
- File ids (`long`) are unbounded integers. No arithmetic is done on them.
- `AlluxioURI` parsing is not modelled: a URI is given as its optional scheme, optional authority and path.
- `UnderFileSystemRegistry.create` is not modelled: its failure is an input, and success allocates a new instance. The `ufsConf` object reaches only the registry and is dropped. The one-argument `Factory.get(URI)` is the two-argument one with a null configuration.
- Closing an instance is recorded in the cache's ghost set of closed instances. The instance's own state is not modelled.
- `toLowerCase` is locale-sensitive in the source. The model lowers ASCII letters only.
- `JavaHash.StringHashIsPolynomial`: Java hashes UTF-16 code units, while a Dafny character is a Unicode scalar value. The two agree for characters up to U+FFFF, and characters above that are not split into surrogate pairs.
- `PermissionMasters.DefaultPermissionMaster.CheckPermission` requires, when checking is enabled, the group lookup succeeds and the user is not privileged, that every existing inode has a record. The source dereferences only those it reaches before the first denial.
- `PermissionMasters.DefaultPermissionMaster.CheckParentPermission` requires a record for every existing inode (on the list left after dropping the leaf), where the source dereferences only the records it reaches before the first denial.
- `PermissionMasters.DefaultPermissionMaster.GetPermission` requires a record for every existing inode, where the source dereferences only the records it reaches before the first denial.
- `PermissionMasters.DefaultPermissionMaster.CheckSetAttributePermission` requires a record for every existing inode, where the source dereferences only the records it reaches before the first denial.
- `PermissionMasters.DefaultPermissionMaster.CheckOwner` requires a record for every existing inode, where the source dereferences only the records it reaches before the first denial.
- `PermissionMasters.DefaultPermissionMaster.CheckInodeList` requires a record for every existing inode (for an unprivileged user), where the source dereferences only the records it reaches before the first denial.
- `PermissionMasters.DefaultPermissionMaster.GetPermissionInternal` requires a record for every existing inode (for an unprivileged user), where the source dereferences only the records it reaches before the first denial.
- `PermissionMasters.DefaultPermissionMaster.CheckSetAttributePermission` requires a non-empty inode list even when the super-user check would deny before the list is used. Real inode paths always hold at least the root.
- `TypedUnderFileSystem`, `DefaultTypedUnderFileSystem`, the etcd under file system, the benchmark and the tests are outside the modelled core.

## Findings

| source | as written | input that shows it | evidently intended | confidence | as-written member | corrected member |
|---|---|---|---|---|---|---|
| core/server/master/src/main/java/alluxio/master/permission/DefaultPermissionMaster.java:110-118 | For an id without a record, `setGroup` builds a new record, sets its group and drops it: nothing is stored. | `setGroup(7, g)` on an empty store, then `getGroup(7)`: the id still has no record, and the getter dereferences null | the first mutation of an id stores a default record with that field set, so `getGroup(7)` returns `g` | medium; not executed | `PermissionMasters.FirstSetGroupIsLost` | `PermissionMasters.DefaultPermissionMaster.SetGroupCreating` |
| core/server/master/src/main/java/alluxio/master/permission/DefaultPermissionMaster.java:120-128 | For an id without a record, `setMode` builds a new record, sets its mode and drops it: nothing is stored. | `setMode(7, m)` on an empty store, then `getMode(7)`: the id still has no record, and the getter dereferences null | the first mutation of an id stores a default record with that field set, so `getMode(7)` returns `m` | medium; not executed | `PermissionMasters.FirstSetModeIsLost` | `PermissionMasters.DefaultPermissionMaster.SetModeCreating` |
| core/server/master/src/main/java/alluxio/master/permission/DefaultPermissionMaster.java:130-138 | For an id without a record, `setOwner` builds a new record, sets its owner and drops it: nothing is stored. | `setOwner(7, o)` on an empty store, then `getOwner(7)`: the id still has no record, and the getter dereferences null | the first mutation of an id stores a default record with that field set, so `getOwner(7)` returns `o` | medium; not executed | `PermissionMasters.FirstSetOwnerIsLost` | `PermissionMasters.DefaultPermissionMaster.SetOwnerCreating` |

The store's own setters are kept as written. `SetGroupCreating`, `SetModeCreating` and
`SetOwnerCreating` (each built on `CreateIfAbsent`) are the corrected updates.
`SetGroupThenGetGroup`, `SetModeThenGetMode` and `SetOwnerThenGetOwner` prove that their round
trips hold.
