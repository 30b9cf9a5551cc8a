/** Scope types, scope keys and the key serializers of the two built-in scope types. */
module ScopeTypes {
  import opened Wrappers
  import opened Text
  import opened GuestMachines

  /** The CLR key type of a scope type. */
  datatype KeyType = GuestMachineIdKey | NoScopeKeyType | CustomKeyType(typeName: string)

  /** A scope key: a guest machine id, the NoScopeKey singleton, or a key of some other type. */
  datatype ScopeKey = MachineKey(machine: GuestMachineId) | NoScopeKey | CustomKey(typeName: string, token: string)

  /** The key is an instance of the key type. */
  predicate KeyFits(t: KeyType, k: ScopeKey)
  {
    match t
    case GuestMachineIdKey => k.MachineKey?
    case NoScopeKeyType => k.NoScopeKey?
    case CustomKeyType(n) => k.CustomKey? && k.typeName == n
  }

  /** ConfigurationScopeType: a record of key type and name, compared by value. */
  datatype ScopeType = ScopeType(keyType: KeyType, name: string)

  /** BuiltInScopeTypes.GuestMachine, keyed by GuestMachineId. */
  const GuestMachineScope: ScopeType := ScopeType(GuestMachineIdKey, "GuestMachine")

  /** BuiltInScopeTypes.Master, keyed by NoScopeKey. */
  const MasterScope: ScopeType := ScopeType(NoScopeKeyType, "Master")

  /** The two MappedSerializer instances of the built-in scope types. */
  datatype KeySerializer = MachineIdSerializer | MasterKeySerializer

  /** The Serializer of a scope type: set for the built-in types only. */
  function SerializerOf(t: ScopeType): (r: Option<KeySerializer>)
    ensures r == Some(MachineIdSerializer) <==> t == GuestMachineScope
    ensures r == Some(MasterKeySerializer) <==> t == MasterScope
  {
    if t == GuestMachineScope then Some(MachineIdSerializer)
    else if t == MasterScope then Some(MasterKeySerializer)
    else None
  }

  /** The cast `(TObject)key` inside the serializer succeeds. */
  predicate Accepts(ser: KeySerializer, k: ScopeKey)
  {
    match ser
    case MachineIdSerializer => k.MachineKey?
    case MasterKeySerializer => k.NoScopeKey?
  }

  /** A key of a scope type is always accepted by that type's serializer. */
  lemma {:induction false} SerializerAcceptsKeysOfItsType(t: ScopeType, k: ScopeKey)
    requires SerializerOf(t).Some? && KeyFits(t.keyType, k)
    ensures Accepts(SerializerOf(t).value, k)
  {
  }

  /** Serialize: the decimal id of a machine; the empty string for NoScopeKey. */
  function Serialize(ser: KeySerializer, k: ScopeKey): (raw: string)
    requires Accepts(ser, k)
    ensures ser == MasterKeySerializer ==> raw == ""
    ensures ser == MachineIdSerializer ==> |raw| >= 1 && AllDigits(raw) && ':' !in raw
  {
    match ser
    case MachineIdSerializer => DecimalString(k.machine as int)
    case MasterKeySerializer => ""
  }

  datatype KeyError = NotAByte | InvalidMachineId

  /** Deserialize: byte.Parse then the GuestMachineId constructor; any text gives NoScopeKey for Master. */
  function Deserialize(ser: KeySerializer, raw: string): (r: Result<ScopeKey, KeyError>)
    ensures ser == MasterKeySerializer ==> r == Ok(NoScopeKey)
    ensures ser == MachineIdSerializer && ParseByte(raw).None? ==> r == Err(NotAByte)
    ensures ser == MachineIdSerializer && ParseByte(raw).Some? ==>
      (r == Err(InvalidMachineId) <==> 3 <= ParseByte(raw).value < 100)
    ensures ser == MachineIdSerializer && r.Ok? ==> r.value.MachineKey? && r.value.machine.Id() == ParseByte(raw).value
    ensures r.Ok? ==> Accepts(ser, r.value)
  {
    match ser
    case MasterKeySerializer => Ok(NoScopeKey)
    case MachineIdSerializer =>
      match ParseByte(raw)
      case None => Err(NotAByte)
      case Some(b) =>
        match New(b)
        case Err(_) => Err(InvalidMachineId)
        case Ok(g) => Ok(MachineKey(g))
  }

  /**
   * Compare: the key's serialized form equals the raw text exactly. It is sound: text that
   * compares equal deserializes to the key.
   */
  function Compare(ser: KeySerializer, k: ScopeKey, raw: string): (r: bool)
    requires Accepts(ser, k)
    ensures r ==> Deserialize(ser, raw) == Ok(k)
    ensures ser == MasterKeySerializer ==> (r <==> raw == "")
  {
    DeserializeSerialize(ser, k);
    Serialize(ser, k) == raw
  }

  /** Deserializing a serialized key gives the key back. */
  lemma {:induction false} DeserializeSerialize(ser: KeySerializer, k: ScopeKey)
    requires Accepts(ser, k)
    ensures Deserialize(ser, Serialize(ser, k)) == Ok(k)
  {
    if ser == MachineIdSerializer {
      ParseByteDecimalString(k.machine as int);
      NewOfId(k.machine);
    }
  }

  /** Compare is sound: raw text that compares equal to a key deserializes to that key. */
  lemma {:induction false} CompareSound(ser: KeySerializer, k: ScopeKey, raw: string)
    requires Accepts(ser, k) && Compare(ser, k, raw)
    ensures Deserialize(ser, raw) == Ok(k)
  {
    DeserializeSerialize(ser, k);
  }

  /**
   * Compare is not complete: a zero-padded id such as "0105" deserializes to machine 105 but
   * does not compare equal to it.
   */
  lemma {:induction false} ComparePaddedId(g: GuestMachineId)
    ensures Deserialize(MachineIdSerializer, "0" + Serialize(MachineIdSerializer, MachineKey(g))) == Ok(MachineKey(g))
    ensures !Compare(MachineIdSerializer, MachineKey(g), "0" + Serialize(MachineIdSerializer, MachineKey(g)))
  {
    var s := Serialize(MachineIdSerializer, MachineKey(g));
    DigitsOfDecimalString(g as int);
    PaddedDigits(s);
    ParseByteDecimalString(g as int);
    NewOfId(g);
  }

  /** Text byte.Parse reads as the byte of a machine id deserializes to that machine. */
  lemma {:induction false} DeserializeParsed(raw: string, g: GuestMachineId)
    requires ParseByte(raw) == Some(g.Id())
    ensures Deserialize(MachineIdSerializer, raw) == Ok(MachineKey(g))
  {
    NewOfId(g);
  }

  /**
   * Nor does Compare accept the white space byte.Parse skips: " 105" deserializes to machine
   * 105 and does not compare equal to it.
   */
  lemma {:induction false} CompareRefusesWhiteSpace(g: GuestMachineId)
    ensures Deserialize(MachineIdSerializer, " " + Serialize(MachineIdSerializer, MachineKey(g))) == Ok(MachineKey(g))
    ensures !Compare(MachineIdSerializer, MachineKey(g), " " + Serialize(MachineIdSerializer, MachineKey(g)))
  {
    var s := Serialize(MachineIdSerializer, MachineKey(g));
    assert IsNumberWhite(' ');
    ParseByteOfDecimal(" ", "", g.Id(), "");
    assert " " + "" + s + "" == " " + s;
    DeserializeParsed(" " + s, g);
    assert |" " + s| != |s|;
  }

  /** Nor the sign byte.Parse accepts: "+105" deserializes to machine 105 and does not compare equal to it. */
  lemma {:induction false} CompareRefusesSign(g: GuestMachineId)
    ensures Deserialize(MachineIdSerializer, "+" + Serialize(MachineIdSerializer, MachineKey(g))) == Ok(MachineKey(g))
    ensures !Compare(MachineIdSerializer, MachineKey(g), "+" + Serialize(MachineIdSerializer, MachineKey(g)))
  {
    var s := Serialize(MachineIdSerializer, MachineKey(g));
    ParseByteOfDecimal("", "+", g.Id(), "");
    assert "" + "+" + s + "" == "+" + s;
    DeserializeParsed("+" + s, g);
    assert |"+" + s| != |s|;
  }

  /** A leading zero does not change the value of a run of digits. */
  lemma {:induction false} PaddedDigits(s: string)
    requires AllDigits(s)
    ensures AllDigits("0" + s) && DigitsValue("0" + s) == DigitsValue(s)
  {
    if s != [] {
      assert ("0" + s)[..|"0" + s| - 1] == "0" + s[..|s| - 1];
      PaddedDigits(s[..|s| - 1]);
    } else {
      assert ("0" + s)[..|"0" + s| - 1] == [];
    }
  }
}
