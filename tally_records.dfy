/**
 * The value side of a tally: its seven descriptive fields, the two small enumerations
 * the HDF5 table stores in place of the entity-type and tally-type strings, the
 * conversion between the strings and those codes, and the row index the reader clamps.
 */
module TallyRecords {
  import opened Wrappers
  import opened Text

  /** The seven descriptive fields of a tally, in the order the constructor takes them. */
  datatype TallyRecord = TallyRecord(
    tallyType: string,
    particleName: string,
    entityId: int,
    entityType: string,
    entityName: string,
    tallyName: string,
    entitySize: real)

  /** `entity_type_enum {VOLUME, SURFACE}` and `tally_type_enum {FLUX, CURRENT}`. */
  datatype EntityKind = Volume | Surface
  datatype TallyKind = Flux | Current

  /** `entity_type_enum2string` and `tally_type_enum2string`, indexed by enum value. */
  const EntityTypeNames: seq<string> := ["Volume", "Surface"]
  const TallyTypeNames: seq<string> := ["Flux", "Current"]

  /** The integer an enumerator converts to (its position in the enum declaration). */
  function EntityCode(k: EntityKind): (c: nat)
    ensures c < |EntityTypeNames|
  {
    match k
    case Volume => 0
    case Surface => 1
  }

  function TallyCode(k: TallyKind): (c: nat)
    ensures c < |TallyTypeNames|
  {
    match k
    case Flux => 0
    case Current => 1
  }

  /** The write path's reading of an entity-type string: "Volume" is looked for first,
      then "Surface"; a string holding neither leaves the code unset (None). */
  function ClassifyEntity(s: string): (r: Option<EntityKind>)
    ensures r.Some? ==> Contains(s, EntityTypeNames[EntityCode(r.value)])
    ensures r.None? <==> !Contains(s, "Volume") && !Contains(s, "Surface")
    ensures r == Some(Surface) ==> !Contains(s, "Volume")
  {
    if Contains(s, "Volume") then Some(Volume)
    else if Contains(s, "Surface") then Some(Surface)
    else None
  }

  /** The write path's reading of a tally-type string: "Flux" first, then "Current". */
  function ClassifyTally(s: string): (r: Option<TallyKind>)
    ensures r.Some? ==> Contains(s, TallyTypeNames[TallyCode(r.value)])
    ensures r.None? <==> !Contains(s, "Flux") && !Contains(s, "Current")
    ensures r == Some(Current) ==> !Contains(s, "Flux")
  {
    if Contains(s, "Flux") then Some(Flux)
    else if Contains(s, "Current") then Some(Current)
    else None
  }

  /** The read path: the code stored in the table indexes the name array. */
  function EntityTypeName(code: int): string
    requires 0 <= code < |EntityTypeNames|
  {
    EntityTypeNames[code]
  }

  function TallyTypeName(code: int): string
    requires 0 <= code < |TallyTypeNames|
  {
    TallyTypeNames[code]
  }

  lemma NamesDoNotOverlap()
    ensures !Contains("Surface", "Volume")
    ensures !Contains("Current", "Flux")
  {
    assert "Surface"[..6][0] != "Volume"[0];
    assert "Surface"[1..] == "urface";
    assert "urface"[..6][0] != "Volume"[0];
    assert !Contains("urface"[1..], "Volume");
    assert "Current"[..4][0] != "Flux"[0];
    assert "Current"[1..] == "urrent";
    assert "urrent"[..4][0] != "Flux"[0];
    assert "urrent"[1..] == "rrent";
    assert "rrent"[..4][0] != "Flux"[0];
    assert "rrent"[1..] == "rent";
    assert "rent"[..4][0] != "Flux"[0];
    assert !Contains("rent"[1..], "Flux");
  }

  /** Writing an entity kind's name and reading it back with the write path's search
      gives the same kind. */
  lemma EntityKindRoundTrip(k: EntityKind)
    ensures ClassifyEntity(EntityTypeName(EntityCode(k))) == Some(k)
  {
    NamesDoNotOverlap();
    match k
    case Volume => OccurrenceContains("Volume", "Volume", 0);
    case Surface => OccurrenceContains("Surface", "Surface", 0);
  }

  lemma TallyKindRoundTrip(k: TallyKind)
    ensures ClassifyTally(TallyTypeName(TallyCode(k))) == Some(k)
  {
    NamesDoNotOverlap();
    match k
    case Flux => OccurrenceContains("Flux", "Flux", 0);
    case Current => OccurrenceContains("Current", "Current", 0);
  }

  /** One row of the tally table: the entity id, the two codes (None
      when the string matched no name: the source leaves that member uninitialised),
      the three names and the size. */
  datatype StoredRow = StoredRow(
    entityId: int,
    entityType: Option<nat>,
    tallyType: Option<nat>,
    particleName: string,
    entityName: string,
    tallyName: string,
    entitySize: real)

  function CodeOfEntity(s: string): Option<nat>
  {
    match ClassifyEntity(s)
    case Some(k) => Some(EntityCode(k))
    case None => None
  }

  function CodeOfTally(s: string): Option<nat>
  {
    match ClassifyTally(s)
    case Some(k) => Some(TallyCode(k))
    case None => None
  }

  /** The codes of a row that the read path can index its name arrays with. */
  predicate Readable(r: StoredRow)
  {
    && r.entityType.Some? && r.entityType.value < |EntityTypeNames|
    && r.tallyType.Some? && r.tallyType.value < |TallyTypeNames|
  }

  /** The row `write_hdf5` fills from a tally before writing it. The names are handed
      over as C strings, so each is stored only up to its first NUL. */
  function PackRow(t: TallyRecord): (r: StoredRow)
    ensures Readable(r) <==> ClassifyEntity(t.entityType).Some? && ClassifyTally(t.tallyType).Some?
    ensures NoNul(r.particleName) && NoNul(r.entityName) && NoNul(r.tallyName)
    ensures r.entityId == t.entityId && r.entitySize == t.entitySize
    ensures r.particleName == CString(t.particleName) && r.entityName == CString(t.entityName)
    ensures r.tallyName == CString(t.tallyName)
  {
    StoredRow(t.entityId, CodeOfEntity(t.entityType), CodeOfTally(t.tallyType),
              CString(t.particleName), CString(t.entityName), CString(t.tallyName), t.entitySize)
  }

  /** The fields `from_hdf5` sets from one row of the table; each name is read back as
      a C string. */
  function UnpackRow(r: StoredRow): (t: TallyRecord)
    requires Readable(r)
    ensures t.entityType in EntityTypeNames && t.tallyType in TallyTypeNames
    ensures NoNul(t.particleName) && NoNul(t.entityName) && NoNul(t.tallyName)
    ensures t.particleName == CString(r.particleName) && t.entityName == CString(r.entityName)
    ensures t.tallyName == CString(r.tallyName)
    ensures t.entityId == r.entityId && t.entitySize == r.entitySize
  {
    TallyRecord(TallyTypeName(r.tallyType.value), CString(r.particleName), r.entityId,
                EntityTypeName(r.entityType.value), CString(r.entityName), CString(r.tallyName),
                r.entitySize)
  }

  /** A tally written and read back keeps its entity id and size; each name comes back
      cut at its first NUL, and each type string is replaced by the canonical name the
      write path recognised in it. It comes back unchanged exactly when both type
      strings already were canonical names and no name holds a NUL. */
  lemma {:induction false} WriteReadRoundTrip(t: TallyRecord)
    requires ClassifyEntity(t.entityType).Some? && ClassifyTally(t.tallyType).Some?
    ensures Readable(PackRow(t))
    ensures UnpackRow(PackRow(t)) ==
      t.(entityType := EntityTypeName(EntityCode(ClassifyEntity(t.entityType).value)),
         tallyType := TallyTypeName(TallyCode(ClassifyTally(t.tallyType).value)),
         particleName := CString(t.particleName),
         entityName := CString(t.entityName),
         tallyName := CString(t.tallyName))
    ensures Contains(t.entityType, UnpackRow(PackRow(t)).entityType)
    ensures Contains(t.tallyType, UnpackRow(PackRow(t)).tallyType)
    ensures UnpackRow(PackRow(t)) == t <==>
      && t.entityType in EntityTypeNames && t.tallyType in TallyTypeNames
      && NoNul(t.particleName) && NoNul(t.entityName) && NoNul(t.tallyName)
  {
    var ek := ClassifyEntity(t.entityType).value;
    var tk := ClassifyTally(t.tallyType).value;
    CStringIdempotent(t.particleName);
    CStringIdempotent(t.entityName);
    CStringIdempotent(t.tallyName);
    EntityKindRoundTrip(Volume);
    EntityKindRoundTrip(Surface);
    TallyKindRoundTrip(Flux);
    TallyKindRoundTrip(Current);
    if t.entityType in EntityTypeNames {
      var i :| 0 <= i < |EntityTypeNames| && EntityTypeNames[i] == t.entityType;
      assert t.entityType == EntityTypeName(EntityCode(ek)) by {
        if i == 0 { assert ek == Volume; } else { assert ek == Surface; }
      }
    }
    if t.tallyType in TallyTypeNames {
      var i :| 0 <= i < |TallyTypeNames| && TallyTypeNames[i] == t.tallyType;
      assert t.tallyType == TallyTypeName(TallyCode(tk)) by {
        if i == 0 { assert tk == Flux; } else { assert tk == Current; }
      }
    }
    if NoNul(t.particleName) && NoNul(t.entityName) && NoNul(t.tallyName) {
      CStringOfNoNul(t.particleName);
      CStringOfNoNul(t.entityName);
      CStringOfNoNul(t.tallyName);
    }
  }

  /** Width of the C++ `int` the row number is held in, and of `hsize_t`. */
  const Int32Min: int := -0x8000_0000
  const Int32Max: int := 0x7FFF_FFFF
  const UInt64Modulus: int := 0x1_0000_0000_0000_0000

  predicate IsInt32(i: int)
  {
    Int32Min <= i <= Int32Max
  }

  /** Conversion of an unsigned 64-bit value to `int`: the value modulo 2^32, read as a
      two's-complement number. */
  function ToInt32(u: nat): (i: int)
    ensures IsInt32(i)
    ensures u <= Int32Max ==> i == u
  {
    var w := u % 0x1_0000_0000;
    if w <= Int32Max then w else w - 0x1_0000_0000
  }

  /** The row `from_hdf5` reads from a table of dims rows: a request at or past the end
      is replaced by the last row. The comparison converts the signed row to the
      unsigned `hsize_t` of dims, so a negative row counts as a huge request too; the
      last-row index is computed in `hsize_t` and converted back to `int`. */
  function ClampRow(row: int, dims: nat): (r: int)
    requires IsInt32(row) && dims < UInt64Modulus
    ensures IsInt32(r)
    ensures 1 <= dims <= Int32Max + 1 ==> 0 <= r < dims
  {
    if row % UInt64Modulus >= dims then ToInt32((dims - 1) % UInt64Modulus) else row
  }

  /** The row index `from_hdf5` computes before it reads: the comparison and the
      last-row index as ClampRow describes them. */
  method ClampedRow(row: int, dims: nat) returns (dataRow: int)
    requires IsInt32(row) && dims < UInt64Modulus
    ensures dataRow == ClampRow(row, dims)
  {
    dataRow := row;
    if row % UInt64Modulus >= dims {
      dataRow := ToInt32((dims - 1) % UInt64Modulus);
    }
  }

  /** For a table of between 1 and 2^31 rows, the clamped row is always a valid index:
      the requested row when it exists, and the last row when the request is past the
      end or negative. */
  lemma ClampRowInRange(row: int, dims: nat)
    requires IsInt32(row) && 1 <= dims <= Int32Max + 1
    ensures 0 <= ClampRow(row, dims) < dims
    ensures 0 <= row ==> ClampRow(row, dims) == if row < dims then row else dims - 1
    ensures row < 0 ==> ClampRow(row, dims) == dims - 1
  {
    if row < 0 {
      assert row % UInt64Modulus == row + UInt64Modulus;
    }
  }

  /** An empty table gives row -1 whatever was asked: one before the read buffer. */
  lemma ClampRowEmptyTable(row: int)
    requires IsInt32(row)
    ensures ClampRow(row, 0) == -1
  {
    assert (0 - 1) % UInt64Modulus == UInt64Modulus - 1;
  }
}
