# gpbackup catalog-to-DDL core, modelled in Dafny

gpbackup backs up a Greenplum database by reading catalog facts and writing them out as SQL DDL.
This project models the part of gpbackup that runs once the catalog has been queried:

- Catalog records are turned into SQL text:
  - `ALTER TABLE … ADD CONSTRAINT`;
  - `CREATE SCHEMA`;
  - `COMMENT`, `OWNER TO` and `REVOKE`/`GRANT` blocks;
  - `CREATE FUNCTION`, `TYPE`, `DOMAIN` and `TABLE`.
- Two text parsers are modelled: PostgreSQL ACL items (`grantee=privchars/grantor`) and schema identifiers.
- Query result rows are turned into per-OID maps, and those maps are joined into one table record per relation.

The renderers and parsers are modelled from the expectations in `backup/predata_shared_test.go`, and the model reproduces those examples exactly. The table assembly and the row-to-map loops follow `backup/queries_table_defs.go` statement by statement.

Layout:

- `wrappers.dfy`: `Option` and `Result`.
- `text.dfy`: `Join`, quote doubling and sequence helpers.
- `catalog.dfy`: `Oid` (32-bit), `Schema`, `Relation` and fully qualified names.
- `identifiers.dfy`: identifier quoting, `Schema.ToString`, `SchemaFromString` and `GetUniqueSchemas`.
- `acl.dfy`: privileges, the letter table and `ParseACL`.
- `sink.dfy`: the output buffer the printers append to. It is a class with one `text` field.
- `metadata.dfy`: object metadata (comment, owner, privileges) and `PrintObjectMetadata`. A small reference semantics of REVOKE/GRANT is used to prove that the printed privilege block restores exactly the ACL list, whatever the object's kind.
- `constraints.dfy`: `PrintConstraintStatements` and its ordering rule.
- `schemas.dfy`: `PrintCreateSchemaStatements`.
- `dependent.dfy`: `PrintCreateDependentTypeAndFunctionAndTablesStatements` and the CREATE statements of functions, types, domains and tables.
- `tabledefs.dfy`: the `Table` aggregate, `SkipDataBackup`, `GetMetadataEntry`, `createAlteredPartitionSchemaSet` and `ConstructDefinitionsForTables`.
- `queryrows.dfy`: the loops that fold query rows into maps:
  - `selectAsOidToStringMap`, `GetPartitionTableMap`, `GetForeignTableDefinitions`, `GetUnloggedTables`;
  - `GetColumnDefinitions`, `GetPartitionAlteredSchema`, `GetTableInheritance`;
  - `GetPartitionDetails`, `GetTableStorage`.

How the code is shaped:

- Printers are methods on a `Buffer`. Each one is proved to append exactly a text function of its inputs.
- Loops are `for` loops whose invariants tie the buffer, or the map built so far, to that function on the processed prefix.
- The properties the tests promise are lemmas about those functions.

Go's zero values are explicit:

- A missing map key yields the value type's zero value.
- A slice is `Nil` or `Made(items)`, so nil and empty can be told apart.

## Model

| member | source | states |
|---|---|---|
| Identifiers.QuoteIdent | backup/predata_shared_test.go:217-228 | a name comes back unchanged exactly when it is a bare identifier, and is double-quoted exactly when it is not |
| Identifiers.UnquoteQuoteIdent | backup/predata_shared_test.go:229-241 | unquoting a quoted name gives the original name back, embedded quotes included |
| Identifiers.SchemaToString | backup/predata_shared_test.go:217-228 | a schema prints bare when its name has no special characters, and quoted otherwise |
| Identifiers.SchemaFromString | backup/predata_shared_test.go:229-247 | OID is always 0; succeeds exactly on a well-quoted name (every inner quote doubled) or on a non-empty unquoted string with no `"` and no `.`; fails otherwise with the message `<s> is not a valid identifier`; an unquoted name is taken unchanged, and a quoted one is the name whose quoting gives the input back |
| Identifiers.QualifiedNameRejected | backup/predata_shared_test.go:242-246 | a qualified name `"a"."b"`, whose `.` lies outside the quotes, is rejected |
| Identifiers.SchemaRoundTrip | backup/predata_shared_test.go:217-241 | SchemaFromString(schema.ToString()) is the schema with OID 0, for every name |
| Identifiers.BareIdentRoundTrip | backup/predata_shared_test.go:218-235 | a bare identifier parses and prints back to itself |
| Identifiers.GetUniqueSchemas | backup/predata_shared_test.go:248-272 | returns exactly the listed schemas whose OID is some relation's schema OID, in list order, without new duplicates; no relations gives an empty list |
| Acl.Letter | backup/predata_shared_test.go:394-431 | each privilege has exactly one ACL letter (a=INSERT, r=SELECT, w=UPDATE, d=DELETE, D=TRUNCATE, x=REFERENCES, t=TRIGGER, X=EXECUTE, U=USAGE, C=CREATE, T=TEMPORARY, c=CONNECT), and that letter is not `*` |
| Acl.ScanPrivilegesSpec | backup/predata_shared_test.go:412-425 | a privilege is held with grant option iff its letter occurs followed by `*`, and plainly iff its letter occurs without a `*` |
| Acl.ScanPrivilegesAppend | backup/predata_shared_test.go:412-425 | scanning privilege text piece by piece gives the union of the pieces' privileges when the second piece does not start with `*` |
| Acl.RunEnd | backup/predata_shared_test.go:382-431 | the privilege run after `=` ends at the first character that is not a privilege letter or `*` |
| Acl.LastSplit | backup/predata_shared_test.go:382-431 | finds the last `=` whose privilege run is followed by `/`, or reports that there is none |
| Acl.ParseACL | backup/predata_shared_test.go:382-431 | no result exactly when the item has no `grantee=privs/` split; otherwise the grantee is the unquoted text before a split |
| Acl.PrivilegeString | backup/predata_shared_test.go:394-431 | the letters written for an ACL record are privilege characters, and the text never starts with `*` |
| Acl.ChunkScan | backup/predata_shared_test.go:412-425 | one privilege's chunk scans back to that privilege alone: with grant option if it was so held, plainly if plainly, nothing otherwise |
| Acl.ScanPrivilegeString | backup/predata_shared_test.go:394-431 | the text written for a record, scanned, gives each privilege in the order list back in the same mode (plain or with grant option) |
| Acl.ScanAclItemPrivileges | backup/predata_shared_test.go:394-431 | privilege text written in ACL order scans back to the record's own plain and grant-option sets |
| Acl.SplitOfItem | backup/predata_shared_test.go:382-431 | in `g=ps/grantor` with a grantor free of `=`, the split found is the one right after the grantee |
| Acl.ParseAclItem | backup/predata_shared_test.go:382-431 | round trip: parsing the ACL item written for a record gives the record back |
| Acl.ParseItemText | backup/predata_shared_test.go:382-431 | parsing `g=ps/grantor` gives grantee unquote(g) with the privileges scanned from ps |
| Acl.ParseDefaultPrivileges | backup/predata_shared_test.go:383-387 | the empty ACL string parses to nothing |
| Acl.ParseNoPrivileges | backup/predata_shared_test.go:388-393 | `GRANTEE=/GRANTOR` gives a record with only the grantee set |
| Acl.ScanTableText | backup/predata_shared_test.go:394-399 | `arwdDxt` is exactly the seven table privileges, all plain |
| Acl.ParseTablePrivileges | backup/predata_shared_test.go:394-399 | `testrole=arwdDxt/gpadmin` gives testrole the seven table privileges, plainly |
| Acl.ParseOnePrivilege | backup/predata_shared_test.go:400-405 | `testrole=a/gpadmin` gives testrole INSERT only |
| Acl.UnquoteTestRole | backup/predata_shared_test.go:406-411 | the quoted grantee `"test\|role"` unquotes to `test\|role` |
| Acl.ParseQuotedGrantee | backup/predata_shared_test.go:406-411 | a quoted grantee is unquoted by the parser |
| Acl.ScanMarkedPrefix | backup/predata_shared_test.go:412-418 | `ar*w*d*` is INSERT plainly and SELECT, UPDATE, DELETE with grant option |
| Acl.ScanPlainSuffix | backup/predata_shared_test.go:412-418 | `tXUCTc` is TRIGGER, EXECUTE, USAGE, CREATE, TEMPORARY, CONNECT plainly |
| Acl.ScanSomeWithGrantText | backup/predata_shared_test.go:412-418 | the mixed privilege text scans to the expected plain and grant-option sets |
| Acl.ParseSomeWithGrant | backup/predata_shared_test.go:412-418 | `testrole=ar*w*d*tXUCTc/gpadmin` parses to the mixed record the test expects |
| Acl.ScanMarkedFirst | backup/predata_shared_test.go:419-425 | `a*D*x*` is INSERT, TRUNCATE, REFERENCES with grant option |
| Acl.ScanMarkedSecond | backup/predata_shared_test.go:419-425 | `t*X*U*` is TRIGGER, EXECUTE, USAGE with grant option |
| Acl.ScanMarkedThird | backup/predata_shared_test.go:419-425 | `C*T*c*` is CREATE, TEMPORARY, CONNECT with grant option |
| Acl.ScanMarkedRest | backup/predata_shared_test.go:419-425 | `t*X*U*C*T*c*` is those six privileges with grant option |
| Acl.ScanAllWithGrantText | backup/predata_shared_test.go:419-425 | every letter starred gives every privilege with grant option and none plainly |
| Acl.ParseAllWithGrant | backup/predata_shared_test.go:419-425 | `testrole=a*D*x*t*X*U*C*T*c*/gpadmin` holds all nine with grant option |
| Acl.ParsePublicGrantee | backup/predata_shared_test.go:426-431 | an empty grantee is PUBLIC (`""`) |
| Metadata.GrantPosition | backup/predata_shared_test.go:305 | the keyword order of a GRANT list: SELECT first through CONNECT last, twelve positions |
| Metadata.First | backup/predata_shared_test.go:305 | the member of a non-empty set that comes first in GRANT order |
| Metadata.InOrder | backup/predata_shared_test.go:305 | lists exactly the members of the set, in strictly increasing GRANT order |
| Metadata.PositionsDistinct | backup/predata_shared_test.go:305 | distinct privileges have distinct GRANT positions |
| Metadata.InOrderUnique | backup/predata_shared_test.go:305 | any list with exactly those members in strictly increasing order is InOrder of the set |
| Metadata.GrantsMatchAcl | backup/predata_shared_test.go:298-325 | the GRANT statements for a grantee grant exactly all of its plain privileges plainly and all of its grant-option privileges with grant option, whatever the object's kind, all to that grantee, in at most two statements; a statement says ALL exactly when its privileges are every privilege of the object's kind |
| Metadata.GrantLineGrants | backup/predata_shared_test.go:298-325 | one GRANT line grants exactly the set it was made for, with its own option and no other |
| Metadata.RunAppend | backup/predata_shared_test.go:298-379 | running two blocks of statements one after the other is running their concatenation |
| Metadata.StepGrant | backup/predata_shared_test.go:298-325 | one GRANT adds its privileges to its grantee only, to the plain or the grant-option set as marked |
| Metadata.RunOneGrant | backup/predata_shared_test.go:298-325 | one GRANT statement, run, changes only its grantee's holdings, by exactly the privileges it names |
| Metadata.RunTwoGrants | backup/predata_shared_test.go:317-325 | a plain GRANT followed by a WITH GRANT OPTION GRANT to the same grantee adds both sets |
| Metadata.RunGrantsFor | backup/predata_shared_test.go:298-325 | the GRANT lines of one ACL record add exactly its privileges to its grantee and touch no other role |
| Metadata.HoldingsStep | backup/predata_shared_test.go:298-325 | one more ACL record changes only its own grantee's holdings |
| Metadata.RunGrantStatements | backup/predata_shared_test.go:298-325 | running the GRANT lines of an ACL list adds to every role exactly what the list gives it |
| Metadata.RevokesClear | backup/predata_shared_test.go:336-349 | after the REVOKE lines no role holds anything, when only PUBLIC and the owner held privileges before |
| Metadata.PrivilegeStatementsRestore | backup/predata_shared_test.go:298-379 | the privilege block leaves every role holding exactly the union of its ACL records' privileges, whatever the object's kind and whatever PUBLIC and the owner held by default |
| Metadata.CommentBlock | backup/predata_shared_test.go:284-290 | the comment block is empty exactly when there is no comment |
| Metadata.OwnerBlock | backup/predata_shared_test.go:291-297 | the owner block is empty exactly when there is no owner |
| Metadata.PrivilegesBlock | backup/predata_shared_test.go:298-306 | the privilege block is empty exactly when the ACL list is empty |
| Metadata.BlocksAreSeparated | backup/predata_shared_test.go:284-380 | every non-empty block starts with a blank line and ends with a newline |
| Metadata.MetadataTextEmpty | backup/predata_shared_test.go:273-380 | an object prints no metadata exactly when it has no comment, owner or privileges |
| Metadata.StatementTextsAppend | backup/predata_shared_test.go:298-325 | the lines of a concatenation are the concatenation of the lines |
| Metadata.PrivilegeLines | backup/predata_shared_test.go:298-325 | the loop builds the text line of each privilege statement, in order |
| Metadata.PrintPrivilegesBlock | backup/predata_shared_test.go:298-325 | appends exactly the privilege block |
| Metadata.PrintCommentAndOwner | backup/predata_shared_test.go:326-335 | appends the comment block, then the owner block |
| Metadata.PrintObjectMetadata | backup/predata_shared_test.go:273-380 | appends exactly the metadata text: comment, then owner, then privileges |
| Metadata.GrantStatementsAreGrants | backup/predata_shared_test.go:298-325 | the per-grantee part holds only GRANT statements |
| Metadata.RevokesOpenPrivilegeBlock | backup/predata_shared_test.go:336-349 | the block starts with REVOKE FROM PUBLIC, then REVOKE FROM the owner when there is one, and everything after is a GRANT |
| Metadata.GrantStatementsOfThree | backup/predata_shared_test.go:298-306 | the GRANT lines for three grantees follow the grantees' order |
| Metadata.InOrderAllButTrigger | backup/predata_shared_test.go:305 | every table privilege but TRIGGER is listed SELECT, INSERT, UPDATE, DELETE, TRUNCATE, REFERENCES |
| Metadata.InOrderSingleton | backup/predata_shared_test.go:306 | a single privilege is listed alone |
| Metadata.AllTablePrivileges | backup/predata_shared_test.go:304 | a grantee holding all seven table privileges gets GRANT ALL, with grant option when held so |
| Metadata.MostTablePrivileges | backup/predata_shared_test.go:305 | a grantee holding all but TRIGGER gets the six keywords in fixed order |
| Metadata.SingleTablePrivilege | backup/predata_shared_test.go:306 | PUBLIC holding TRIGGER alone gets `GRANT TRIGGER … TO PUBLIC` |
| Metadata.TablePrivilegeStatements | backup/predata_shared_test.go:298-316 | the statements of the table examples: REVOKE PUBLIC, REVOKE owner if set, then GRANT ALL, the six-keyword list and TRIGGER, all plain or all WITH GRANT OPTION |
| Metadata.MixedTablePrivilegeStatements | backup/predata_shared_test.go:317-325 | grant option is decided per grantee: plain GRANT ALL to one, a listed grant WITH GRANT OPTION to the next |
| Metadata.CommentOnlyText | backup/predata_shared_test.go:284-290 | a comment alone prints `COMMENT ON <type> <name> IS '<comment>';` after a blank line |
| Metadata.CommentOnlyTextOn | backup/predata_shared_test.go:40-50 | a comment on an object owned by a table prints `COMMENT ON <type> <name> ON <table> IS …` |
| Metadata.OwnerOnlyText | backup/predata_shared_test.go:291-297 | an owner alone prints `ALTER <type> <name> OWNER TO <owner>;` after a blank line |
| Metadata.OwnerHoldsAllStatements | backup/predata_shared_test.go:199-215 | an owner holding every kind: REVOKE PUBLIC, REVOKE owner, GRANT ALL to the owner |
| Metadata.OwnerHoldsAllText | backup/predata_shared_test.go:199-215 | the text of that block, line by line |
| Metadata.FullMetadataText | backup/predata_shared_test.go:199-215 | comment, owner and privilege blocks in that order, each after a blank line |
| Constraints.Group | backup/predata_shared_test.go:60-173 | a group holds exactly the printable constraints of one kind (foreign key or not), as a subsequence of the input |
| Constraints.Printable | backup/predata_shared_test.go:174-179 | domain constraints are dropped and nothing else is |
| Constraints.GroupAppend | backup/predata_shared_test.go:60-173 | grouping distributes over concatenation, so relative order inside a group is the input order |
| Constraints.EmissionOrder | backup/predata_shared_test.go:60-179 | exactly the non-domain constraints, with no foreign key before a non-foreign key |
| Constraints.GroupsPermute | backup/predata_shared_test.go:60-179 | the two groups together are a permutation of the printable constraints |
| Constraints.EmissionOrderPermutes | backup/predata_shared_test.go:60-179 | the print order is a permutation of the non-domain constraints |
| Constraints.EmissionOrderKeepsGroupOrder | backup/predata_shared_test.go:60-173 | the print order is the non-foreign keys in input order, then the foreign keys in input order |
| Constraints.GroupOfGroup | backup/predata_shared_test.go:60-173 | regrouping a group keeps it, and yields nothing of the other kind |
| Constraints.EmissionOrderIdempotent | backup/predata_shared_test.go:60-173 | reordering an already-ordered list changes nothing |
| Constraints.SwapAcrossGroups | backup/predata_shared_test.go:106-173 | swapping a foreign key with an adjacent non-foreign key in the input does not change the output |
| Constraints.RenderAllEmpty | backup/predata_shared_test.go:32-38 | rendering prints nothing exactly for an empty list |
| Constraints.ConstraintStatementsEmpty | backup/predata_shared_test.go:32-38 | PrintConstraintStatements prints nothing exactly when every constraint is a domain constraint |
| Constraints.PrintConstraint | backup/predata_shared_test.go:40-59 | appends one constraint's ALTER TABLE statement and its metadata |
| Constraints.SplitGroups | backup/predata_shared_test.go:60-173 | the loop splits the list into exactly the non-foreign-key group and the foreign-key group |
| Constraints.PrintAll | backup/predata_shared_test.go:60-173 | the loop appends each constraint's text in list order |
| Constraints.PrintConstraintStatements | backup/predata_shared_test.go:12-190 | appends exactly the texts of the constraints in emission order |
| Constraints.RenderOne | backup/predata_shared_test.go:52-59 | a one-element list renders as that constraint's text |
| Constraints.SingleConstraint | backup/predata_shared_test.go:52-94 | a single non-domain constraint prints as its own text |
| Constraints.ForeignKeyPrintedLast | backup/predata_shared_test.go:106-173 | a foreign key given before a unique or primary key is printed after it |
| Constraints.DomainConstraintSkipped | backup/predata_shared_test.go:174-179 | a domain check constraint prints nothing |
| Constraints.PlainConstraint | backup/predata_shared_test.go:52-59 | `ALTER TABLE ONLY <owner> ADD CONSTRAINT <name> <def>;` after a blank line |
| Constraints.PartitionParentConstraint | backup/predata_shared_test.go:180-188 | a partition parent drops ONLY |
| Constraints.CommentedConstraint | backup/predata_shared_test.go:40-51 | a commented constraint prints its ALTER, then `COMMENT ON CONSTRAINT <name> ON <owner> IS '…';` |
| Constraints.OnlyAlterText | backup/predata_shared_test.go:52-59 | a constraint not on a partition parent uses ALTER TABLE ONLY |
| Constraints.ConstraintCommentText | backup/predata_shared_test.go:40-51 | a constraint comment names the owning table with ON |
| Constraints.UniqueConstraintWithComment | backup/predata_shared_test.go:40-51 | the exact text of the commented UNIQUE constraint example |
| SchemaStatements.SchemasTextAppend | backup/predata_shared_test.go:191-216 | schemas print in list order |
| SchemaStatements.PrintCreateSchemaStatements | backup/predata_shared_test.go:191-216 | appends, for each schema in order, its CREATE SCHEMA statement followed by its metadata |
| SchemaStatements.BasicSchema | backup/predata_shared_test.go:192-198 | a schema without metadata prints `CREATE SCHEMA schemaname;` alone |
| SchemaStatements.SchemaWithMetadata | backup/predata_shared_test.go:199-215 | a schema with comment, owner and owner-held privileges prints CREATE, COMMENT, OWNER, two REVOKEs and GRANT ALL, in that order |
| Dependent.DomainConstraints | backup/predata_shared_test.go:459-498 | exactly the constraints owned by the domain, in input order |
| Dependent.DomainConstraintsAppend | backup/predata_shared_test.go:459-498 | selecting a domain's constraints distributes over concatenation |
| Dependent.ConstraintLinesEmpty | backup/predata_shared_test.go:503-542 | no constraint lines exactly when there are no constraints |
| Dependent.DomainConstraintTextEmpty | backup/predata_shared_test.go:503-542 | a domain has no inlined constraint text exactly when no constraint names it as owner |
| Dependent.DomainConstraintPlacement | backup/predata_shared_test.go:174-179 | a domain constraint is inlined in its domain, and never printed as ALTER TABLE |
| Dependent.PrintDomainConstraints | backup/predata_shared_test.go:489-490 | the loop appends one `\n\tCONSTRAINT <name> <def>` per owned constraint, in order |
| Dependent.ObjectsTextAppend | backup/predata_shared_test.go:459-542 | objects print in list order |
| Dependent.ObjectsTextSnoc | backup/predata_shared_test.go:459-542 | printing one more object appends its text |
| Dependent.PrintCreateFunctionStatement | backup/predata_shared_test.go:465-471 | appends the CREATE FUNCTION statement and the function's metadata |
| Dependent.PrintTypeStatement | backup/predata_shared_test.go:474-490 | appends the CREATE TYPE or CREATE DOMAIN statement of the type's kind |
| Dependent.PrintCreateTypeStatement | backup/predata_shared_test.go:474-493 | appends the type statement and its metadata, commented as DOMAIN or TYPE |
| Dependent.PrintCreateTableStatement | backup/predata_shared_test.go:496-500 | appends CREATE TABLE with the definition's columns and distribution policy, then the metadata |
| Dependent.PrintObject | backup/predata_shared_test.go:459-542 | dispatches on the object's kind and appends exactly its text |
| Dependent.PrintCreateDependentTypeAndFunctionAndTablesStatements | backup/predata_shared_test.go:433-544 | appends the text of every object, in the given order |
| Dependent.StatementLayout | backup/predata_shared_test.go:459-542 | every statement starts with a newline, and ends with one exactly unless it is a composite type, which is why only a composite has a single blank line before its comment |
| Dependent.CommentedObject | backup/predata_shared_test.go:459-542 | an object with a comment prints its statement, then `COMMENT ON <kind> <name> IS '…';` after a blank line |
| Dependent.CommentedFunction | backup/predata_shared_test.go:465-471 | a function's comment names it with its argument types |
| Dependent.TypeCommentKind | backup/predata_shared_test.go:480-493 | a domain is commented ON DOMAIN, another type ON TYPE, under its qualified name |
| Dependent.EmptyCompositeType | backup/predata_shared_test.go:483-485 | a composite without attributes prints an empty body |
| Dependent.TwoAttributeCompositeType | backup/predata_shared_test.go:483-485 | composite attributes are joined by `,\n` |
| Dependent.DomainWithoutConstraint | backup/predata_shared_test.go:531 | a domain without constraints ends right after its base type |
| Dependent.DomainWithConstraint | backup/predata_shared_test.go:489-490 | a domain inlines its constraint before the semicolon |
| Dependent.TableWithoutColumns | backup/predata_shared_test.go:496-497 | a table without columns prints `(\n) <policy>;` |
| TableDefs.GetMetadataEntry | backup/queries_table_defs.go:29-43 | section `predata`; the table's schema and name; FOREIGN TABLE exactly when the foreign definition is non-zero, TABLE otherwise; empty reference and zero byte offsets |
| TableDefs.ForeignTablesSkipData | backup/queries_table_defs.go:24-43 | a table listed as FOREIGN TABLE skips its data backup |
| TableDefs.CreateAlteredPartitionSchemaSet | backup/queries_table_defs.go:48-57 | the keys are exactly the new schemas of all tables' moved partitions, each mapped to true |
| TableDefs.AlteredSchemasAppend | backup/queries_table_defs.go:50-55 | one more table adds exactly its own moved partitions' schemas |
| TableDefs.DefinitionFor | backup/queries_table_defs.go:101-121 | the assembled inheritance list is never nil, and IsExternal holds exactly when the external definition's OID is non-zero |
| TableDefs.DefinitionOfUnknownTable | backup/queries_table_defs.go:101-121 | an OID absent from every map gets the zero definition, except for an empty non-nil inheritance list |
| TableDefs.AssembledSkipDataBackup | backup/queries_table_defs.go:24-27 | an assembled table skips its data exactly when an external definition with a non-zero OID, or a non-zero foreign definition, was found for it |
| TableDefs.AssembledInherits | backup/queries_table_defs.go:114-121 | the assembled inheritance list is the parents found, in order, or empty |
| TableDefs.ConstructDefinitionsForTables | backup/queries_table_defs.go:82-125 | one table per relation, in input order, carrying that relation and the definition joined from the maps at its OID |
| QueryRows.LastWins | backup/queries_table_defs.go:161-164 | the keys are exactly the OIDs of the rows |
| QueryRows.LastWinsValue | backup/queries_table_defs.go:161-164 | the value stored for an OID is that of the last row carrying it |
| QueryRows.GroupByOid | backup/queries_table_defs.go:260-264 | the keys are exactly the OIDs of the rows |
| QueryRows.GroupByOidValues | backup/queries_table_defs.go:260-264 | each group is exactly the row-ordered values of its OID, and no group is empty |
| QueryRows.LastWinsAppend | backup/queries_table_defs.go:514-517 | one more row overwrites its OID's entry |
| QueryRows.GroupByOidAppend | backup/queries_table_defs.go:260-264 | one more row is appended to its OID's group |
| QueryRows.SelectAsOidToStringMap | backup/queries_table_defs.go:507-519 | the map built is last-row-wins over the (OID, value) rows |
| QueryRows.GetPartitionTableMap | backup/queries_table_defs.go:139-167 | the map built is last-row-wins over the partition rows |
| QueryRows.PartitionTableMapKeys | backup/queries_table_defs.go:161-164 | the row stored under an OID carries that OID and is one of the rows |
| QueryRows.GetForeignTableDefinitions | backup/queries_table_defs.go:446-467 | before version 6 the map is empty; otherwise it is last-row-wins over the foreign table rows |
| QueryRows.GetUnloggedTables | backup/queries_table_defs.go:423-438 | before version 6 the map is empty; otherwise its keys are exactly the OIDs returned, all mapped to true |
| QueryRows.StorageTypeName | backup/queries_table_defs.go:190-195 | a storage code gets a non-empty name exactly when it is one of e, m, p, x |
| QueryRows.StorageTypeNameInvertible | backup/queries_table_defs.go:190-195 | the translation loses nothing on the four codes: each code comes back from its name |
| QueryRows.GetColumnDefinitions | backup/queries_table_defs.go:259-266 | each table's columns are grouped in row order, with storage codes translated |
| QueryRows.ColumnDefinitionsBelong | backup/queries_table_defs.go:259-266 | every column listed for a table carries its OID, and its storage type is a strategy name or empty |
| QueryRows.GetPartitionAlteredSchema | backup/queries_table_defs.go:383-388 | each root table's moved child partitions are grouped in row order |
| QueryRows.GetTableInheritance | backup/queries_table_defs.go:500-504 | each child table's parents are grouped in row order |
| QueryRows.TemplatePairs | backup/queries_table_defs.go:342-347 | exactly the (OID, template) pairs of the rows whose template is not NULL |
| QueryRows.GetPartitionDetails | backup/queries_table_defs.go:322-349 | definitions are last-row-wins over all rows; templates are last-row-wins over the non-NULL ones only |
| QueryRows.ValidPairs | backup/queries_table_defs.go:412-419 | exactly the (OID, value) pairs of the rows whose chosen column is not NULL |
| QueryRows.GetTableStorage | backup/queries_table_defs.go:391-421 | tablespaces and reloptions are each last-row-wins over their non-NULL values only |
| QueryRows.StoredValuesAreValid | backup/queries_table_defs.go:412-419 | a stored tablespace or reloptions value comes from a non-NULL value of some row for that OID |

## Left out

- The SQL text of every query, `connectionPool.Select`, logging and `FatalOnError`: query results are parameters (sequences of rows), and a failed query is not modelled.
- `GetDistributionPolicies`, `GetTableType`, `GetTableReplicaIdentity` and `GetExternalTableDefinitions`: they only run a query and fill a map through `selectAsOidToStringMap` or a query helper; their maps are inputs of `ConstructDefinitionsForTables`.
- Catalog-version branches: `Version.Before("6")` is a `before6` parameter where it decides the result (`GetUnloggedTables`, `GetForeignTableDefinitions`), and the version-dependent columns of `GetColumnDefinitions` are plain fields.
- `GetTableInheritance`: the `INCLUDE_RELATION` flag only changes the SQL filter, so only the grouping loop is modelled.
- `ExternalTableDefinition`: only its OID is kept, the only field the assembly reads.
- Table of contents byte offsets beyond `GetMetadataEntry`'s zeros, and security labels.
- Dependent.TableStatement: a column prints as its name and type only; defaults, NOT NULL, encodings, storage and per-column privileges are not rendered.
- Dependent.TypeStatement: the composite body lists the type's attribute list. The test's single AttName/AttType row is not what the body prints: the expected output shows an empty body. Type kinds other than base, composite and domain are not modelled.
- Acl.ParseACL: the regular expression's treatment of newlines is not modelled, and the split is the last `=` whose privilege run is followed by `/`.
- Identifiers.QuoteIdent: a bare identifier is ASCII letters, digits and `_`. Upper-case letters and reserved words, which PostgreSQL's `quote_ident` would also quote, are not treated specially.
- Go's `nil` versus empty results of the renderers: GetUniqueSchemas returns a Dafny sequence, which has no nil.
- `restore/remote.go` is not part of this model: it runs shell commands on the cluster.

Choices a reader might not expect, with the tests that fix them where they do:

- `REVOKE ALL … FROM <owner>` is printed whenever an owner is set and the ACL list is non-empty, including when the owner holds every privilege (backup/predata_shared_test.go:199-215).
- Each GRANT line says ALL when its privileges are exactly those of the object's kind, and otherwise lists every privilege held, including any the kind does not have. An object type with no known kinds (a constraint, for instance) gets its privileges listed.
- A grantee holding some privileges plainly and others with grant option gets two GRANT lines: the plain list, then the WITH GRANT OPTION list. This keeps the round trip from ACL records to statements and back exact (`Metadata.PrivilegeStatementsRestore`).
- A domain's constraints are the ones whose owning object is the domain's qualified name, whatever their domain flag (backup/predata_shared_test.go:459-462 sets no flag).
- A function statement starts with a blank line, like the other statements. The test's expected text is a substring match, which pins only the one newline.
- `Dependent.CreateStatement` requires a table's definition to be in the definitions map (`Resolvable`). A missing one would be a Go zero value, which the tests never exercise.
