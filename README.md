# Tally cards, Cantor mesh coordinates and nuclide ids, in Dafny

This project models three pieces of PyNE, the nuclear engineering toolkit.

- **The tally card generator** (`src/tally.cpp`). A `pyne::Tally` holds what is tallied
  (flux or current), of which particle, on which volume or surface. It also holds three
  particle-name alias tables, for FLUKA, MCNP5 and MCNP6. The model covers:
  - the two constructors and `setup_alias`;
  - `mcnp()`, which writes the MCNP `F` and `SD` cards;
  - `fluka()`, which writes the fixed-column `USRTRACK` or `USRBDX` cards, and whose two
    side effects change the object;
  - the `operator<<` description;
  - the type-string ↔ enumeration mapping of the HDF5 read and write paths, and the row
    clamp of the read path.

  The class `TallyCards.Tally` keeps the fields and the `map<string, string>` tables. Its
  methods `Mcnp` and `Fluka` build the text piece by piece and are proved against the
  functions that specify it (`McnpLines`, `FlukaDeck`). `operator<<` is a free function that
  takes the tally by value and changes nothing, so it is the function `Describe`. The lemmas
  about these functions state what the decks look like.
- **Cantor dust coordinates** (`examples/mesh_tags.py`). This covers `cant(x, y, n)` and
  `cantor(n)`, over exact `real`s: their lengths, the placement of the new points, strict
  monotonicity, and that each level refines the previous one.
- **The canonical nuclide id** `ZZZAAASSSS` (`tutorial/01-nuclide-naming.py`). This covers
  the Z / A / S decomposition, both round trips, the worked examples and the charge range.

Modules:

- `Wrappers` (Option);
- `Text` (the C++ string and stream behaviour the writers rely on: `find`, `setw` with
  `left`/`right`, `resize`, `int` output, `std::endl`-terminated lines);
- `TallyRecords` (the record value, the enumerations, the stored row and the row clamp);
- `TallyCards` (alias tables, MCNP and FLUKA decks, the description, class `Tally`);
- `CantorMesh`;
- `NuclideId`.

Notes on reading the code:

- **The row clamp.** `from_hdf5` compares an `int` row with the `hsize_t` row count, so a
  negative row converts to a huge unsigned number. It is therefore also replaced by the
  last row. The clamped row is `min(row, dims - 1)` only for non-negative rows. For an
  empty table it is `-1`. `ClampRow` models the comparison as written.
- **Which type string is looked for first.** `mcnp()` looks for "Surface" before "Volume".
  The write path of the HDF5 table looks for "Volume" first. On the tally type, `mcnp()`
  looks for "Current" before "Flux" on surfaces; `fluka()` and the write path look for "Flux"
  first. Each is modelled with its own order.
- **`mcnp()` changes nothing.** It reads the tables only after `find` has found the key.
  `Tally.Mcnp` therefore has no `modifies` clause, and the verifier enforces that it leaves
  the object unchanged.
- **`fluka()` changes the object.** It looks the particle up with the inserting
  subscript, so a missing particle is added to the FLUKA table with an empty name and
  prints as an empty field. It also resizes the tally name to eight characters for flux
  and current tallies. The comment line uses the name before the resize.
- **Names in the tally table are C strings.** `write_hdf5` hands each name over with
  `c_str()`, and `from_hdf5` reads it back with `std::string(const char *)`. Both stop at
  the first NUL, so the NUL padding that `fluka()`'s `resize(8)` adds to a short name is
  lost on the way through the table (`FlukaNameReadBack`).
- **FLUKA detector cards never end in a newline.** That is how the source writes the
  second card.

## Model

| member | source | states |
|---|---|---|
| Text.PadLeft | src/tally.cpp:505-512 | `setw(w) << right`: the result is the wider of w and the text, ends with the text, and is spaces before it; nothing is cut |
| Text.PadRight | src/tally.cpp:504 | `setw(w) << left`: the result is the wider of w and the text, starts with the text, and is spaces after it |
| Text.Resize | src/tally.cpp:515 | `resize(n)`: the length is exactly n; a longer string keeps its first n characters; a shorter one is kept and padded with NUL characters |
| Text.ResizeIdempotent | src/tally.cpp:539 | resizing a second time to the same length changes nothing |
| Text.Contains | src/tally.cpp:237 | `s.find(t) != npos`, defined by trying each start position in turn; the next two rows show it is exactly "t occurs in s" |
| Text.ContainsHasOccurrence | src/tally.cpp:237 | `find(t) != npos` holds only when t occurs at some index of s |
| Text.OccurrenceContains | src/tally.cpp:243 | every occurrence of t in s makes `find(t) != npos` hold |
| Text.CString | src/tally.cpp:250-252 | the string a `c_str()` pointer stands for: a prefix of s without NUL, ending where s has its first NUL or where s ends |
| Text.CStringOfNoNul | src/tally.cpp:200-202 | a string without NUL passes through `c_str()` and `std::string(const char *)` unchanged |
| Text.CStringIdempotent | src/tally.cpp:200-202 | reading back a stored C string a second time changes nothing |
| Text.ResizeThenCString | src/tally.cpp:515 | a name without NUL, resized to n and then read as a C string, is the name itself when at most n long and its first n characters otherwise |
| Text.IntToString | src/tally.cpp:461 | `<<` of an int writes at least one character, each a digit or the minus sign |
| Text.IntToStringRoundTrip | src/tally.cpp:422 | the decimal text of an integer reads back as that integer |
| Text.SplitJoinLines | src/tally.cpp:456 | text written as `std::endl`-terminated lines, none holding a newline, splits back into exactly those lines |
| Text.CardLayout | src/tally.cpp:504-525 | seven ten-column fields followed by SDUM: field k is in columns 10k to 10k+9, and SDUM starts at column 70 |
| TallyRecords.EntityCode | src/tally.cpp:14 | an entity enumerator converts to an index of the entity name array |
| TallyRecords.TallyCode | src/tally.cpp:15 | a tally enumerator converts to an index of the tally name array |
| TallyRecords.ClassifyEntity | src/tally.cpp:237-240 | "Volume" is looked for first, then "Surface": the kind found names a string that occurs in the entity type, Surface only when "Volume" does not occur, and none exactly when neither occurs |
| TallyRecords.ClassifyTally | src/tally.cpp:243-246 | "Flux" is looked for first, then "Current": the kind found names a string that occurs in the tally type, Current only when "Flux" does not occur, and none exactly when neither occurs |
| TallyRecords.PackRow | src/tally.cpp:235-253 | the row written: the entity id and size as they are; both codes readable exactly when both type strings were recognised; each name cut at its first NUL |
| TallyRecords.UnpackRow | src/tally.cpp:197-203 | the fields read from a row: the type names are canonical names, each name is the stored one cut at its first NUL, and the id and size are those stored |
| TallyRecords.NamesDoNotOverlap | src/tally.cpp:17-18 | "Surface" does not contain "Volume", and "Current" does not contain "Flux" |
| TallyRecords.EntityKindRoundTrip | src/tally.cpp:198 | the name an entity code is read as maps back to that code on the write path (lines 237-240) |
| TallyRecords.TallyKindRoundTrip | src/tally.cpp:199 | the name a tally code is read as maps back to that code on the write path (lines 243-246) |
| TallyRecords.WriteReadRoundTrip | src/tally.cpp:197-203 | a tally written (lines 235-253) and read back keeps its entity id and size; each name comes back cut at its first NUL; each type string becomes the canonical name found in it; it comes back unchanged exactly when both type strings are canonical names and no name holds a NUL |
| TallyRecords.ToInt32 | src/tally.cpp:159 | converting an unsigned 64-bit value to int gives a 32-bit value, equal to the input when the input fits |
| TallyRecords.ClampRow | src/tally.cpp:158-159 | the row read always fits an int; for a table of 1 to 2^31 rows it is a valid row index |
| TallyRecords.ClampedRow | src/tally.cpp:158-159 | the comparison and the last-row index computed step by step give the row ClampRow describes |
| TallyRecords.ClampRowInRange | src/tally.cpp:158-159 | for a non-empty table: the requested row when it exists, the last row when the request is past the end, and the last row again for a negative request |
| TallyRecords.ClampRowEmptyTable | src/tally.cpp:158-159 | for an empty table the row is -1 whatever was asked |
| TallyCards.McnpParticleToken | src/tally.cpp:430-453 | a version naming "mcnp5" takes the MCNP5 designator; one naming "mcnp6" but not "mcnp5" takes the MCNP6 designator; the token is "?" when the table consulted lacks the particle or the version names neither |
| TallyCards.McnpUnknownToken | src/tally.cpp:430-453 | the particle token is "?" exactly when the version names "mcnp5" and the particle is missing from the MCNP5 table, or names "mcnp6" but not "mcnp5" and it is missing from the MCNP6 table, or names neither |
| TallyCards.StandardTablesHaveNoQuestionMark | src/tally.cpp:97-108 | no standard MCNP designator is "?", so the previous row applies to the standard tables |
| TallyCards.McnpSuffix | src/tally.cpp:459-479 | the tally number ends in 1, 2 or 4, or there is no card; a card needs an entity type naming "Surface" or "Volume" and a tally type naming "Flux" or "Current" |
| TallyCards.McnpSuffixCases | src/tally.cpp:459-479 | the tally number ends in 1 exactly for Surface and Current; in 2 for Surface, Flux and not Current; in 4 for Volume (and not Surface) and Flux; there is no card in every other case |
| TallyCards.McnpLines | src/tally.cpp:455-479 | one to three lines, the first always the comment "C name", and a third only when the size is positive |
| TallyCards.McnpLinesShape | src/tally.cpp:455-479 | the MCNP deck is the comment "C name", then an F card exactly when there is a tally number, then an SD card exactly when in addition the size is positive; both cards have the same number and the F card names the particle token and the entity id |
| TallyCards.McnpTextLines | src/tally.cpp:455-482 | the MCNP text splits back into exactly those lines when the name, the token and the formatted size hold no newline |
| TallyCards.FlukaParticle | src/tally.cpp:498 | the FLUKA name used is the table's entry for the particle when there is one, and the empty string otherwise |
| TallyCards.FlukaDeck | src/tally.cpp:500-554 | the FLUKA text of a tally: the comment line with the name before the resize, then the USRTRACK cards for a type naming "Flux", the USRBDX cards for one naming "Current" but not "Flux", and nothing else otherwise |
| TallyCards.TrackCardColumns | src/tally.cpp:503-517 | when the particle, unit, region and formatted size each fit ten columns, the first USRTRACK card is 78 columns: the keyword, then particle, unit, region and volume each right-justified in its own ten columns, and the eight-character name in columns 71-78 |
| TallyCards.BdxCardColumns | src/tally.cpp:527-541 | when the particle, unit, region and formatted size each fit ten columns, the first USRBDX card is 78 columns: particle, unit, the region twice and the area in their ten-column fields, and the eight-character name in columns 71-78 |
| TallyCards.ContinuationCardsColumns | src/tally.cpp:518-525 | both continuation cards (lines 518-525 and 542-549) are 78 columns and end in the continuation mark |
| TallyCards.FlukaParticleFits | src/tally.cpp:74-95 | every standard FLUKA particle name, and the empty name a missing particle gets (line 498), fits the ten-column particle field |
| TallyCards.FlukaDeckComment | src/tally.cpp:500-554 | for every tally, the FLUKA deck starts with "* name" and there is nothing after it exactly when the tally type names neither "Flux" nor "Current" |
| TallyCards.FlukaDeckShape | src/tally.cpp:503-549 | when the particle, unit, region and formatted size each fit ten columns, a flux or current deck continues after the comment with two 78-column cards separated by one newline |
| TallyCards.WriteTrackCards | src/tally.cpp:504-525 | the fields written one by one to the stream make up the two USRTRACK cards |
| TallyCards.WriteBdxCards | src/tally.cpp:528-549 | the fields written one by one make up the two USRBDX cards |
| TallyCards.WriteDetectorCards | src/tally.cpp:503-553 | the cards written are USRTRACK for a type naming "Flux", USRBDX for one naming "Current" but not "Flux", and none otherwise |
| TallyCards.WriteFlukaDeck | src/tally.cpp:500-554 | the text written is FlukaDeck of the tally, and the name kept is resized to 8 characters exactly when the type names "Flux" or "Current" |
| TallyCards.FlukaNameReadBack | src/tally.cpp:515 | a flux or current tally's name after `fluka()`, written to the table (line 252) and read back (line 201), is the original name when it is at most eight characters without NUL, and its first eight characters when longer |
| TallyCards.DescribeLines | src/tally.cpp:418-423 | the three lines `operator<<` prints: the rule line, "Tallying" with the particle and tally type, "in/on" with the entity type and id |
| TallyCards.Describe | src/tally.cpp:418-423 | the printed text: those three lines, each ended by a newline |
| TallyCards.DescribeReadsBack | src/tally.cpp:418-423 | the printed description is three lines, the first the rule line, and the entity id reads back from the end of the last line |
| TallyCards.Tally.Empty | src/tally.cpp:37-48 | every string is empty, the entity id is -1, the size is -1.0, and the three alias tables are the standard ones |
| TallyCards.Tally.constructor | src/tally.cpp:50-63 | each argument is copied into its field, and the three alias tables are the standard ones |
| TallyCards.Tally.SetupAlias | src/tally.cpp:72-110 | each table becomes its old content overwritten by the standard aliases; the descriptive fields are unchanged |
| TallyCards.Tally.Mcnp | src/tally.cpp:427-483 | the text is the lines of McnpLines, for the token the version and the tables select, each ended by a newline; the object is not modified |
| TallyCards.Tally.FlukaSubscript | src/tally.cpp:498 | the lookup yields the stored FLUKA name, or inserts the key with an empty name and yields that empty name |
| TallyCards.Tally.Fluka | src/tally.cpp:486-555 | the FLUKA table gains the particle with an empty name if it lacked it; the tally name is cut or NUL-padded to 8 characters exactly when the tally type names "Flux" or "Current"; every other field and table is unchanged; the text is FlukaDeck of the old fields |
| TallyCards.Tally.ReadRow | src/tally.cpp:157-203 | the seven fields become those of the clamped row, with the type names looked up from the stored codes and the names read as C strings; the tables are unchanged |
| TallyCards.Tally.WriteRow | src/tally.cpp:235-253 | the row written holds the entity id, the codes the write path recognises (none when neither name occurs), the three names cut at their first NUL, and the size |
| CantorMesh.Cant | examples/mesh_tags.py:24-28 | level n has 2^(n+1) - 2 interior points, so none at level 0 |
| CantorMesh.Cantor | examples/mesh_tags.py:21-22 | level n has 2^(n+1) coordinates, starting with 0 and ending with 1 |
| CantorMesh.CantMiddle | examples/mesh_tags.py:27-28 | the two points a level adds sit at indices 2^n - 2 and 2^n - 1, one third and two thirds of the way from x to y |
| CantorMesh.JoinLevel | examples/mesh_tags.py:24-28 | one level of `cant`: the left run, the two new points and the right run form one increasing run between the outer ends |
| CantorMesh.CantBetween | examples/mesh_tags.py:24-28 | for x < y the interior points increase strictly and lie strictly between x and y |
| CantorMesh.CantorIncreasing | examples/mesh_tags.py:21-22 | the coordinates of every level increase strictly, as the structured mesh at line 43 needs |
| CantorMesh.CantRefines | examples/mesh_tags.py:24-28 | every interior point of level n is an interior point of level n + 1 |
| CantorMesh.CantorRefines | examples/mesh_tags.py:21-22 | every coordinate of level n is a coordinate of level n + 1 |
| NuclideId.ZNum | tutorial/01-nuclide-naming.py:131 | the Z-number is the largest z with z * 10^7 not above the id |
| NuclideId.ANum | tutorial/01-nuclide-naming.py:135 | the A-number is between 0 and 999 |
| NuclideId.SNum | tutorial/01-nuclide-naming.py:139 | the state is between 0 and 9999 |
| NuclideId.DecomposeRoundTrip | tutorial/01-nuclide-naming.py:131-139 | Z * 10^7 + A * 10^4 + S gives back every integer id |
| NuclideId.ComposeRoundTrip | tutorial/01-nuclide-naming.py:17-20 | an id built from a charge, a mass number below 1000 and a state below 10000 decomposes into exactly those three numbers |
| NuclideId.Americium242m | tutorial/01-nuclide-naming.py:127-140 | 942420001 has Z 94, A 242 and state 1 |
| NuclideId.Uranium235 | tutorial/01-nuclide-naming.py:19-20 | 922350000 has Z 92, A 235 and state 0 |
| NuclideId.ChargeRange | tutorial/01-nuclide-naming.py:67-70 | every id strictly between 10000000 and 2130000000 has a charge from 1 to 212 |

## Left out

- HDF5 file handling in `from_hdf5` and `write_hdf5` is not modelled. This covers the existence checks, the `H5*` calls, the compound types, and appending to or creating the dataset. The table is a `seq<StoredRow>` parameter of `Tally.ReadRow`, and `Tally.WriteRow` returns the row that would be written.
- The `char *` overloads of `from_hdf5` and `write_hdf5` only convert their arguments, so they are not modelled.
- The console messages of `mcnp()` and `fluka()` are not modelled. They do not affect the returned text.
- Formatting of `double` values is not modelled. It is a caller-supplied `real -> string` function: `formatSize` for the default stream format in `mcnp()`, and `formatFixed` for `fixed` with `setprecision(1)` in `fluka()`. Integers are formatted exactly.
- TallyRecords.PackRow: a type string that names neither enumerator leaves the stored code uninitialised in the source. The model records this as `None` and does not say what an uninitialised code would read back as.
- TallyRecords.UnpackRow: a stored code outside the name arrays is undefined behaviour in the source. The model requires the codes to be in range (`Readable`).
- TallyRecords.ClampRowInRange: the clamped row equals `min(row, dims - 1)` only for non-negative rows. A negative row gives the last row, because the source compares it as an unsigned number.
- TallyCards.Tally.ReadRow: requires a table of 1 to 2^31 rows. The source's behaviour is undefined for an empty table, which makes it read `read_data[-1]`, and for a table so long that the last row index converts to a negative `int`.
- Python floats in `cant` and `cantor` are exact `real`s here. With doubles, the new points are only rounded thirds, so `CantMiddle` does not hold exactly, and `CantBetween`'s strict order can fail at deep levels, where neighbouring points round to the same double.
- The entity size is a `real`, so the NaN and infinite values a `double` can hold, and the way `entity_size > 0.0` treats them, are not modelled.
- Each Dafny `char` of a name, type string, unit or formatted number stands for one byte of the C++ `std::string`. `setw`, `resize` and `find` count bytes, so non-ASCII text has to be given as its UTF-8 bytes, one `char` per byte. The column widths that `PadLeft`, `PadRight`, `Resize` and the card lemmas state hold only under that reading.
- The entity id and the tally index are unbounded integers. Their 32-bit `int` width is not modelled; the row number's width is.
- The order of the single-entry assignments in `setup_alias` is not modelled. All their keys are distinct, so each table's update is stated as one map union.
- The transmutation chain solver and the other tutorials and examples are not part of this model. The solver's module is only imported, and the others only call library code.
