# Dia to PostgreSQL DDL exporter, modelled in Dafny

This project models the export filter in `postgresql.py`. The filter turns a
Dia database diagram into one PostgreSQL DDL script. A diagram holds tables,
reference arrows and compound-key connectors. The export runs in two phases.

1. **Resolution** (`SQLRenderer.begin_render`). One pass over the layer's
   objects does the following:
   - it indexes each table by its name, and a later table of the same name
     replaces the earlier one;
   - it attaches each connected reference to the table that owns the foreign
     key, and appends every reference to one list;
   - it sets a valid compound key on the one table it connects to;
   - it warns about everything it cannot resolve.
2. **Emission** (`PostgreSql`). The output buffer receives, in order:
   - a header line;
   - one `DROP TABLE IF EXISTS` statement per indexed name, then a blank line;
   - one `CREATE TABLE` per indexed table;
   - the batch of `ALTER TABLE ONLY ... ADD FOREIGN KEY` statements.

The Dafny modules follow that structure:

| module | file | contents |
|---|---|---|
| `Text` | `text.dfy` | Python 2 string behaviour the exporter relies on: truthiness, `str.join`, `%-*s` padding, `%s` of `None`, `repr` of byte strings and of lists |
| `Dia` | `dia.dfy` | the diagram as values (`Shape`, `Attribute`, `Handle`, `ConnPoint`); `DiaColumn`; `DH.dia_table_name` and `DH.get_conn_field`; the end-point lookups of `DiaReference`; the comprehensions of `DiaAttrCompound` |
| `Diagnostics` | `diagnostics.dfy` | `dia.message`, as a `Sink` object that logs `(level, text)` pairs |
| `Resolver` | `resolver.dfy` | `DiaTable` as a class whose `refs` and `multiCol` fields change in place; the resolution loop as methods; the same loop as a function `Resolve` over the objects seen so far |
| `PgSql` | `pgsql.dfy` | the `PostgreSql` class with its `sql` buffer and the three DDL methods; each method is proved against a function of the text it appends |
| `Renderer` | `renderer.dfy` | `begin_render` from the loop to the final buffer, with the dictionary order taken as any enumeration of the keys; the export as a whole as the function `Render` |
| `ResolutionFacts` | `resolution_facts.dfy` | what resolution establishes: last table wins, what each kind of object does, and every reference accounted for once |
| `EmissionFacts` | `emission_facts.dfy` | what emission establishes: primary-key rendering, suffix order, layout, the foreign-key batch, DROP statements, and worked examples |

The exceptions the code can raise are results, not preconditions. A
`Failure` value ends the export before anything is written:
- `KeyError` when a reference or compound names a table that is not indexed
  yet (postgresql.py:37, :56);
- `IndexError` for a reference with fewer than two handles (:181, :184), or
  for a compound with no table-anchor handle (:52);
- `TypeError` when `", ".join` meets an unresolved compound field (:281).

Three behaviours of the code are easy to misread; the model follows the
code:
- a connected reference is attached to the table that owns the foreign key
  (`handles[1]`), not to the referenced table;
- every primary-flagged column is rendered `PRIMARY KEY`, not only the first;
- the reference list handed to emission holds every reference, connected or
  not; emission alone filters out the unconnected ones (:290).

## Model

| member | source | states |
|---|---|---|
| Dia.TableName | postgresql.py:224-228 | a name is returned exactly for a shape of type `Database - Table`, and it is that shape's `name` property |
| Dia.GetConnField | postgresql.py:202-222 | the search loop and the counting loop compute `ConnField`: `None` when the point is not among its owner's, else the name of attribute `(i - 12) / 2`, or "" when that index is outside the attribute list |
| Dia.SlotResolvesToField | postgresql.py:203-222 | both connection points `12+2j` and `12+2j+1` of field line `j` resolve to the name of attribute `j` |
| Dia.SlotOutsideFieldsResolvesToEmpty | postgresql.py:213-222 | a point of the owner that lies before slot 12 or after the last field line resolves to "" |
| Dia.UnknownSlotResolvesToNone | postgresql.py:205-210 | a point that is not among its owner's connections resolves to `None` |
| Dia.FieldIndexExact | postgresql.py:213 | the floor-divided field index is `j` exactly when the slot is `12+2j` or `12+2j+1` |
| Dia.Attribute.IsPrimary | postgresql.py:129-130 | `DiaColumn.is_primary`: the primary-key flag equals 1 |
| Dia.Attribute.IsNullable | postgresql.py:132-133 | `DiaColumn.is_nullable`: the nullable flag equals 1 |
| Dia.Attribute.IsUnique | postgresql.py:135-136 | `DiaColumn.is_unique`: the unique flag equals 1 |
| Dia.ConnField | postgresql.py:203-222 | the closed form of `get_conn_field` that `GetConnField` is proved against and the slot lemmas are stated about |
| Dia.OwnerTable | postgresql.py:147-151 | `DiaReference.table_name`: the table at the end of handle 1 |
| Dia.ForeignKey | postgresql.py:153-157 | `DiaReference.foreign_key`: the field at the end of handle 1 |
| Dia.TargetTable | postgresql.py:159-163 | `DiaReference.ref_table`: the table at the end of handle 0 |
| Dia.TargetField | postgresql.py:165-169 | `DiaReference.ref_field`: the field at the end of handle 0 |
| Dia.EndPoint | postgresql.py:180-181 | `DiaReference._end_hndl_cpoint`: the attachment of handle 1, the foreign-key owner's end |
| Dia.StartPoint | postgresql.py:183-184 | `DiaReference._start_hndl_cpoint`: the attachment of handle 0, the referenced table's end |
| Dia.ReferenceLookups | postgresql.py:147-184 | for every reference with two handles: the owner is read from handle 1 and the referenced table from handle 0; an end names a table exactly when it is attached to a table shape, and then it is that shape's name; an end gives no field when it is unattached, and otherwise `get_conn_field` of its point (`None` for a point that is not among its owner's) |
| Dia.AnchorPoints | postgresql.py:190-191 | `DiaAttrCompound._cpoints`: the attachments of the connect-type-2 handles, in handle order |
| Dia.AnchorPointsAreAnchors | postgresql.py:190-191 | every anchor point is the attachment of a connect-type-2 handle, and every such handle's attachment is an anchor point |
| Dia.AnchorPointsOfHandles | postgresql.py:190-191 | the compound's anchor points are read handle by handle: the anchors of a split handle list are those of its two parts, in order |
| Dia.CompoundTableNames | postgresql.py:193-194 | one table name (or `None`) per table-anchor handle |
| Dia.CompoundFieldNames | postgresql.py:196-197 | one field name (or `None`) per table-anchor handle |
| Text.Pad | postgresql.py:263 | `%-*s`: the name, then spaces up to the width; a longer name is not cut |
| Text.JoinThenSeparator | postgresql.py:301-302 | a join followed by its separator puts the separator after every item |
| Text.Repr | postgresql.py:268 | Python 2 `repr` of a byte string is quoted, with the same quote at both ends |
| Text.ReprList | postgresql.py:51-53 | `%s` of the table-name list is bracketed |
| Diagnostics.Sink.Message | postgresql.py:39 | `dia.message` appends one `(level, text)` entry to the log |
| Resolver.ReferenceStep | postgresql.py:30-46 | one reference: `IndexError` without two handles; a warning and the list append when an end names no table; otherwise `KeyError` for an owner not yet indexed, or the reference attached to its owner and appended to the list |
| Resolver.CompoundStep | postgresql.py:47-56 | one compound: a warning when an anchor names no table, `IndexError` with no anchor, a warning when the anchors name different tables, `KeyError` for a table not yet indexed, else the table's compound key replaced |
| Resolver.Step | postgresql.py:27-58 | one iteration of the loop over the objects, dispatching on the shape type; an unknown type only warns, and after an exception nothing changes |
| Resolver.Resolve | postgresql.py:24-59 | the loop over the objects as a fold from an empty index, list and log; the function the method `ResolveObjects` is proved equal to, and that the resolution lemmas are stated about |
| PgSql.Header | postgresql.py:235 | the buffer's first text, `\n-- Generated at <timestamp>\n\n` |
| PgSql.DropText | postgresql.py:246-249 | `drop_tables`: one `DROP TABLE IF EXISTS <name> CASCADE;` line per name in order, then a blank line |
| PgSql.Constraints | postgresql.py:264-276 | `PRIMARY KEY ` for a primary column of a table without a compound key, in place of `UNIQUE ` and `NOT NULL `; otherwise `UNIQUE ` when unique, then `NOT NULL ` when not nullable |
| PgSql.CreateTable | postgresql.py:251-283 | `create_table_sql` on one table: its text, its duplicate-primary warnings, and `TypeError` after the head when a compound field is unresolved |
| PgSql.ReferencesText | postgresql.py:285-302 | `create_references_sql`: the statements of the connected references joined by `;\n`, then `;\n\n` |
| PgSql.CreateAll | postgresql.py:61-62 | the CREATE TABLE steps for a sequence of tables in order, stopping at the first exception |
| Resolver.MultiColumnKey | postgresql.py:110-113 | a field list exists exactly when a compound key was set |
| Resolver.DiaTable.constructor | postgresql.py:71-74 | a new table has no references and no compound key |
| Resolver.DiaTable.AddRef | postgresql.py:101-102 | appends the reference and leaves the key alone |
| Resolver.DiaTable.SetMultiColumnKey | postgresql.py:104-105 | replaces any earlier key and leaves the references alone |
| Resolver.ReferenceWarning | postgresql.py:35-45 | a reference gets no warning exactly when both of its ends name tables |
| Resolver.FailureIsFinal | postgresql.py:26-59 | once an exception is raised, no later object changes the outcome |
| Resolver.ResolvedRefsHaveEnds | postgresql.py:30-46 | every reference in the list has both handles |
| Resolver.ResolveReference | postgresql.py:30-46 | the reference branch changes the tables, the reference list, the log and the exception as `ReferenceStep` does |
| Resolver.ResolveCompound | postgresql.py:47-56 | the compound branch changes the tables, the log and the exception as `CompoundStep` does |
| Resolver.ResolveOne | postgresql.py:27-59 | one iteration changes the state as `Step` does; the index stays injective and holds only old or fresh tables |
| Resolver.ResolveObjects | postgresql.py:24-59 | the loop leaves the index, the reference list, the exception and the log of `Resolve(objects)`; every table is fresh and indexed once |
| ResolutionFacts.LastTable | postgresql.py:27-29 | the position found holds a table of that name, and no later object is one |
| ResolutionFacts.TablesLastWins | postgresql.py:26-56 | a name is indexed exactly when some table has it; its entry is the last such table, with the references attached to that name after it and the last compound keyed on it after it |
| ResolutionFacts.RefsAreReferenceShapes | postgresql.py:30-46 | the reference list is every reference shape, connected or not, in object order |
| ResolutionFacts.ReferenceAccounting | postgresql.py:30-46 | connected references plus reference warnings equals the number of reference shapes |
| ResolutionFacts.ReferenceOutcome | postgresql.py:30-46 | the four cases: missing handles raise `IndexError`; a connected reference is attached to its owner (or raises `KeyError`) silently; the three unconnected cases give their warning and leave the index alone; the reference is always appended |
| ResolutionFacts.UnknownTypeOnlyWarns | postgresql.py:57-58 | a shape of another type changes nothing but adds one warning `Unknown type: <type>` |
| ResolutionFacts.ResolutionOnlyWarns | postgresql.py:39-58 | every message of the loop is at warning level |
| ResolutionFacts.CompoundAllOrNothing | postgresql.py:47-56 | a compound whose anchors all name one table sets that table's key, overwriting an earlier one (or raises `KeyError`); otherwise it leaves the index alone and adds exactly one warning, `Disconnected compound <names>.` when an anchor names no table and `Compound connected to more than one table <names>.` otherwise, or raises `IndexError` when it has no anchor; it never touches the reference list |
| PgSql.Longest | postgresql.py:255 | the width is at least every column name's length and equals one of them (0 for no columns) |
| PgSql.PostgreSql.constructor | postgresql.py:232-235 | the buffer starts with the header for the given clock reading |
| PgSql.PostgreSql.DropTables | postgresql.py:246-249 | appends one DROP statement per name, in order, then a blank line |
| PgSql.PostgreSql.RenderColumn | postgresql.py:260-279 | the column's line, the new `previous_primary`, and a duplicate-primary warning exactly when the column is primary, there is no compound key and `previous_primary` is a non-empty name |
| PgSql.PostgreSql.RenderColumns | postgresql.py:257-279 | the column loop yields the lines of `ColumnLines` and the warnings of `PrimaryWarnings` |
| PgSql.PostgreSql.CreateTableSql | postgresql.py:251-283 | appends the text of `CreateTable`, logs its warnings and raises its exception |
| PgSql.PostgreSql.CreateReferencesSql | postgresql.py:285-302 | appends the foreign-key batch `ReferencesText` |
| EmissionFacts.SuffixPrimaryIff | postgresql.py:264-278 | a suffix opens with `PRIMARY KEY ` exactly when the column is primary and there is no compound key; it is then that and the default only |
| EmissionFacts.SuffixOrder | postgresql.py:272-278 | otherwise `UNIQUE ` is there exactly when the column is unique, then `NOT NULL ` exactly when it is not nullable, and the default clause ends it |
| EmissionFacts.NamesAligned | postgresql.py:255-263 | every name is padded to the same width, the longest name's, and keeps its text |
| EmissionFacts.EveryPrimaryColumnKeyed | postgresql.py:259-279 | without a compound key, one line per column in order, and a line carries `PRIMARY KEY` exactly when its column is primary |
| EmissionFacts.CompoundKeyLast | postgresql.py:280-283 | with a resolved compound key, no column is `PRIMARY KEY`, and the key line is the table's last line, just before the closing parenthesis |
| EmissionFacts.CreateTableRaisesIff | postgresql.py:251-283 | CREATE TABLE raises exactly when the compound key holds an unresolved field, the exception is `TypeError`, and the head is already in the buffer |
| EmissionFacts.DuplicatePrimaryWarnings | postgresql.py:257-270 | without a compound key, each primary column after the first warns once and names the primary column before it; `previous_primary` ends as the last primary name |
| EmissionFacts.NoWarningsWithCompound | postgresql.py:264 | with a compound key the column loop gives no warning |
| EmissionFacts.RefLinesCount | postgresql.py:287-296 | one statement per connected reference |
| EmissionFacts.ConnectedRefs | postgresql.py:290 | the references kept are connected and taken from the list, and every connected one is kept |
| EmissionFacts.RefLinesOfConnected | postgresql.py:285-296 | the statements are those of the connected references, in order |
| EmissionFacts.ReferencesLayout | postgresql.py:301-302 | with no connected reference the batch is `;` and a blank line; otherwise each statement is followed by `;` and a newline, then a blank line |
| EmissionFacts.DropOnePerKey | postgresql.py:246-249 | over a key enumeration, a name's DROP statement appears once, at its place in the order |
| EmissionFacts.ReprPlain | postgresql.py:268 | a name without quotes, backslashes or control characters is shown as `'name'` |
| EmissionFacts.DuplicatePrimaryExample | postgresql.py:264-270 | primary columns `id` then `code` give exactly `Multiple keys with no compound definition. Previous 'id' current 'code'.` |
| EmissionFacts.UsersTableExample | postgresql.py:251-283 | the exact CREATE TABLE text for `users(id int primary, email text unique not null)`, with no warning and no exception |
| EmissionFacts.ForeignKeyExample | postgresql.py:285-296 | the exact ALTER TABLE statement for a reference from `orders.user_id` to `users.id` |
| Renderer.Render | postgresql.py:21-63 | the whole export for one enumeration of the keys: the first exception, or the header, DROPs, CREATE TABLEs and the foreign-key batch, with the log of both phases |
| Renderer.KeysInSomeOrder | postgresql.py:60-61 | the order lists every key of the index exactly once |
| Renderer.CreateTables | postgresql.py:61-62 | one CREATE TABLE per table in turn, up to the first exception, as `CreateAll` |
| Renderer.CreateAllStep | postgresql.py:61-62 | after tables that raised nothing, one more table appends exactly its own text and messages and its outcome becomes the result |
| Renderer.EmitResolved | postgresql.py:60-63 | after a clean loop: DROP statements over the key order, the tables in that same order, then the foreign-key batch, as `Render` |
| Renderer.BeginRender | postgresql.py:21-63 | the whole export: the output and the log of `Render` for the key order it used |
| Renderer.FirstFailureIsFinal | postgresql.py:61-62 | after one CREATE TABLE raises, the later tables change nothing |
| Renderer.CreateAllSucceedsIff | postgresql.py:61-62 | the CREATE TABLE steps succeed exactly when no table has an unresolved compound field; otherwise they raise `TypeError` |
| Renderer.EnumerationSize | postgresql.py:60 | an enumeration of the keys has one entry per key |
| Renderer.OrderVisitsEveryTable | postgresql.py:60-62 | walking the keys visits every table once |
| Renderer.ExportOutcome | postgresql.py:24-63 | after a clean loop, the script is written exactly when no compound key has an unresolved field, and raises `TypeError` otherwise; the script starts with the header and the DROP statements and ends with the foreign-key batch |

## Left out

- File handling is not modelled: `open`, `write_sql` and `end_render` (postgresql.py:19-20, 64, 66-67, 237-238). The result is the final buffer, `Written(sql)`.
- The clock is not modelled. The `time.strftime` reading (postgresql.py:235) is the `timestamp` parameter.
- `os.path.basename(filename)` is not modelled: it is passed to `PostgreSql` but never used (postgresql.py:22, 232).
- The Dia host is not modelled: `dia.register_export`, the live object model, and `dia.message`. The diagram is plain datatypes and the message sink is a log.
- A connection point is its owner and its position. The exporter only ever compares connection points of one object, so object identity is not modelled.
- These debug and reflection helpers are not modelled: `get_members`, `enum_props`, `PostgreSql.unknown_object`, `DiaTable.connections` and `DiaTable.handles` (postgresql.py:86-99, 240-244, 305-329). They rely on `dir`, `getattr` and `str` of arbitrary host objects, and the export never calls them.
- `DiaReference.is_one2one` and `on_delete` (postgresql.py:173-178) never influence the output.
- Dictionary iteration order is left open, since the host defines it. `BeginRender` uses some enumeration of the keys, returns it, and uses it for both `keys()` and `values()`; the lemmas about the export hold for every enumeration.
- Text.ReprChar: characters above 255 and `unicode` values are not modelled. Their `repr` (a `u` prefix and `\u` escapes) is not captured; only byte strings are.
- EmissionFacts.DuplicatePrimaryWarnings: requires every primary column name to be non-empty. A primary column named "" is falsy as `previous_primary`, so no warning names it; the general model (`PrimaryWarnings`) still covers that case.
- PgSql.PostgreSql.CreateReferencesSql: requires every reference to have both handles. Its only caller passes the reference list of a loop that did not raise, which guarantees this (`Resolver.ResolvedRefsHaveEnds`).
