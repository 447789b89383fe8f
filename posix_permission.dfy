/** The mutable (owner, group, mode) record kept per file id. */
module PosixPermissions {
  import opened Mode
  import JavaHash

  /** The value a record holds at one moment. */
  datatype Attr = Attr(owner: string, group: string, mode: Short)

  /** The record itself; the getters of the source are reads of these fields. */
  class PosixPermission {
    var group: string
    var owner: string
    var mode: Short

    /** A new record has empty owner and group and the invalid-mode sentinel. */
    constructor ()
      ensures owner == "" && group == "" && mode == INVALID_MODE
    {
      group := "";
      mode := INVALID_MODE;
      owner := "";
    }

    function Value(): Attr
      reads this
    {
      Attr(owner, group, mode)
    }

    /** Sets the group and returns the record itself, for chaining. */
    method SetGroup(g: string) returns (r: PosixPermission)
      modifies this
      ensures r == this
      ensures group == g && owner == old(owner) && mode == old(mode)
    {
      group := g;
      r := this;
    }

    /** Sets the mode and returns the record itself, for chaining. */
    method SetMode(m: Short) returns (r: PosixPermission)
      modifies this
      ensures r == this
      ensures mode == m && owner == old(owner) && group == old(group)
    {
      mode := m;
      r := this;
    }

    /** Sets the owner and returns the record itself, for chaining. */
    method SetOwner(o: string) returns (r: PosixPermission)
      modifies this
      ensures r == this
      ensures owner == o && group == old(group) && mode == old(mode)
    {
      owner := o;
      r := this;
    }

    /**
     * `equals(Object)`: the same object, or another record (not null) with equal group, owner
     * and mode. The identity shortcut agrees with the field comparison.
     */
    function Equals(o: PosixPermission?): (r: bool)
      reads this, o
      ensures r <==> o != null && Value() == o.Value()
    {
      if this == o then true
      else if o == null then false
      else group == o.group && owner == o.owner && mode == o.mode
    }

    /** `hashCode()`: `Objects.hashCode(group, mode, owner)`; a boxed short hashes to its value. */
    function HashCode(): (h: int)
      reads this
      ensures JavaHash.IsInt(h)
    {
      JavaHash.CombineHashes([JavaHash.StringHash(group), mode as int, JavaHash.StringHash(owner)])
    }
  }

  lemma EqualsReflexive(p: PosixPermission)
    ensures p.Equals(p)
  {
  }

  lemma EqualsSymmetric(p: PosixPermission, q: PosixPermission)
    ensures p.Equals(q) <==> q.Equals(p)
  {
  }

  /** Equal records hash alike: the hash covers exactly the fields `equals` compares. */
  lemma EqualsImpliesEqualHash(p: PosixPermission, q: PosixPermission)
    requires p.Equals(q)
    ensures p.HashCode() == q.HashCode()
  {
  }
}
