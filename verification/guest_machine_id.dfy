/** GuestMachineId: a byte that names a guest machine or one of three sentinels. */
module GuestMachines {
  import opened Wrappers
  import opened Text

  /**
   * The ids a GuestMachineId can hold: the constructor refuses 3..99, so every
   * value is a sentinel (0, 1, 2) or a real machine (100..255).
   * Equality, hashing and == all compare Id only, which is the equality of this type.
   */
  newtype GuestMachineId = x: int | 0 <= x < 3 || 100 <= x < 0x100
  {
    predicate IsUninitialized() { this == 0 }
    predicate IsContextBased() { this == 1 }
    predicate IsAny() { this == 2 }

    /** The id itself, or `replacement` when this id is the context-based placeholder. */
    function UseContext(replacement: GuestMachineId): (r: GuestMachineId)
      ensures this.IsContextBased() ==> r == replacement
      ensures !this.IsContextBased() ==> r == this
    {
      if this.IsContextBased() then replacement else this
    }

    /** The byte the id wraps. */
    function Id(): (b: uint8)
      ensures b < 3 || 100 <= b
    {
      this as int
    }

    /** ToString: "[GM:<id>]". */
    function ToString(): (r: string)
      ensures |r| >= 6 && r[..4] == "[GM:" && r[|r| - 1] == ']'
      ensures ParseDecimal(r[4..|r| - 1]) == Some(this as nat)
    {
      var digits := DecimalString(this as int);
      ParseDecimalString(this as int);
      assert ("[GM:" + digits + "]")[4..|digits| + 4] == digits;
      "[GM:" + digits + "]"
    }
  }

  const UninitializedMachine: GuestMachineId := 0
  const ContextBasedMachine: GuestMachineId := 1
  const AnyMachine: GuestMachineId := 2

  datatype IdError = InvalidId

  /** The GuestMachineId constructor: it throws for ids 3..99 and accepts every other byte. */
  function New(id: uint8): (r: Result<GuestMachineId, IdError>)
    ensures r.Ok? <==> (id < 3 || 100 <= id)
    ensures r.Ok? ==> r.value.Id() == id
  {
    if 3 <= id < 100 then Err(InvalidId) else Ok(id as GuestMachineId)
  }

  /** Every id the constructor accepted comes back from it unchanged. */
  lemma {:induction false} NewOfId(g: GuestMachineId)
    ensures New(g.Id()) == Ok(g)
  {
  }

  /** Replacing the context twice with the same machine is the same as replacing it once. */
  lemma {:induction false} UseContextIdempotent(g: GuestMachineId, c: GuestMachineId)
    ensures g.UseContext(c).UseContext(c) == g.UseContext(c)
  {
  }
}
