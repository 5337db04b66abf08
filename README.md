# CrateDB role handling, scalar compilation and query shapes, modelled in Dafny

This project models five pieces of CrateDB's sequential logic and proves what
each one promises.

- **Scalar compiler** (`symbol_visitor.dfy`, module `ImplementationSymbolVisitor`).
  The visitor turns a symbol tree into an evaluator tree.
  - A literal is its own input, and an alias is transparent.
  - Plain, dynamic and void references all go to the shared `visitReference` hook.
  - A scalar function is first compiled by `Scalar.compile` against its raw arguments. If that call throws, its error is the result. Its arguments are then compiled one by one into a fixed-size array.
  - A non-scalar function, or any other symbol kind, is refused with its message.
  - `Accept` and `VisitFunction` are the imperative visitor, with the array and its loop. `Compile` is the function they are proved against.
- **Query shapes and their renderer** (`lucene_query.dfy`, module `LuceneQueryVisitor`).
  - The Lucene query kinds the test renderer distinguishes.
  - The renderer: `createTree` as `CreateTree`/`Tree`, `i` as `I`/`Indent`, `o` as `OccurName`.
  - The translation from WHERE clauses to queries, as far as the test's assertions pin it down, with every assertion stated as a lemma.
- **ALTER ROLE** (`alter_role.dfy`, module `AlterRole`).
  - `alterRole`, working on a metadata builder.
  - The minimum-node-version guard of `masterOperation`.
  - The update task with its `roleExists` flag.
- **Role table** (`roles_service.dfy`, module `Roles`).
  - `getRoles` builds a name-to-role map in loops. It creates empty privilege sets as a side effect.
  - The `RolesService` cache starts out as `{crate}` and is recomputed by `clusterChanged`.
- **Privileges request wire format** (`privileges_request.dfy`, module `PrivilegesRequests`).
  - The stream is a sequence of abstract tokens.
  - `writeTo` and the stream constructor are methods. They are proved against `Encode` and `Decode`, which round-trip in both directions.

`role_metadata.dfy` (module `RoleMetadata`) holds the role records and the three custom metadata sections these use.
`wrappers.dfy` holds `Option` and `Result`: nullable values and exceptions become these.

Choices the model makes where the code is terse:

- The registry lookup is guarded only by a Java `assert`. The model makes it a precondition (`Resolved`).
- `Scalar.compile` receives all raw arguments, not only the literal ones.
- A void reference goes to the same `visitReference` hook as a dynamic one. The model does not give it a null sentinel of its own.
- The rendered AND query has minimum-should-match 1, the same as OR. The `!=` rewrite has 0 on both of its boolean queries.

## Model

| member | source | states |
|---|---|---|
| ImplementationSymbolVisitor.Accept | server/src/main/java/io/crate/expression/BaseImplementationSymbolVisitor.java:80-104 | dispatching on the symbol kind yields exactly `Compile` of the symbol, for every symbol whose lookups resolve |
| ImplementationSymbolVisitor.VisitFunction | server/src/main/java/io/crate/expression/BaseImplementationSymbolVisitor.java:54-78 | an error from `Scalar.compile` ends the visit before any argument is visited. Otherwise filling the argument array in a loop, stopping at the first argument that throws, yields exactly `Compile` of the function |
| ImplementationSymbolVisitor.LiteralCompilesToItself | server/src/main/java/io/crate/expression/BaseImplementationSymbolVisitor.java:81-83 | a literal compiles to itself, unchanged |
| ImplementationSymbolVisitor.AliasIsTransparent | server/src/main/java/io/crate/expression/BaseImplementationSymbolVisitor.java:91-93 | an alias resolves when its symbol does and compiles to what its symbol compiles to |
| ImplementationSymbolVisitor.ReferencesUseTheHook | server/src/main/java/io/crate/expression/BaseImplementationSymbolVisitor.java:86-98 | plain, dynamic and void references all yield exactly what `visitReference` yields |
| ImplementationSymbolVisitor.OtherSymbolsAreRefused | server/src/main/java/io/crate/expression/BaseImplementationSymbolVisitor.java:101-104 | any other kind fails with `Can't handle Symbol [kind: text]` and yields no input |
| ImplementationSymbolVisitor.NonScalarFunctionsAreRefused | server/src/main/java/io/crate/expression/BaseImplementationSymbolVisitor.java:68-76 | a non-scalar entry fails with `Function name(T1, T2, ...) is not a scalar function.` naming the argument types in order |
| ImplementationSymbolVisitor.ArgumentTypes | server/src/main/java/io/crate/expression/BaseImplementationSymbolVisitor.java:74 | definition only, no contract of its own: the argument type names in order. What the message built from it says is proved in `NonScalarFunctionsAreRefused`, `JoinOne` and `JoinAppend` |
| ImplementationSymbolVisitor.JoinOne | server/src/main/java/io/crate/expression/BaseImplementationSymbolVisitor.java:74 | a single type name is printed with no separator |
| ImplementationSymbolVisitor.JoinAppend | server/src/main/java/io/crate/expression/BaseImplementationSymbolVisitor.java:74 | for any non-empty list of type names, one more name adds exactly one separator and that name at the end, so separators only go between consecutive names |
| ImplementationSymbolVisitor.CompileArgumentsMeaning | server/src/main/java/io/crate/expression/BaseImplementationSymbolVisitor.java:63-66 | the argument walk succeeds iff every argument compiles, yields one input per argument in argument order, and otherwise fails with the first failing argument's error |
| ImplementationSymbolVisitor.ScalarFunctionShape | server/src/main/java/io/crate/expression/BaseImplementationSymbolVisitor.java:59-67 | a scalar function compiles iff `Scalar.compile` returns and all its arguments compile. It then yields a function expression holding what `Scalar.compile(arguments, userName, roles)` returned, and an input array as long as the arguments, the k-th entry being the compiled k-th argument |
| ImplementationSymbolVisitor.ScalarFunctionFirstError | server/src/main/java/io/crate/expression/BaseImplementationSymbolVisitor.java:59-67 | a failing scalar function fails with `Scalar.compile`'s error whenever that call throws, whatever its arguments. Otherwise it fails with the error of its first failing argument, all earlier arguments having compiled |
| ImplementationSymbolVisitor.CompileKeepsLiterals | server/src/main/java/io/crate/expression/BaseImplementationSymbolVisitor.java:54-93 | compiling a tree without references keeps its literal leaves, unchanged and in order |
| ImplementationSymbolVisitor.CompileArgumentsKeepLiterals | server/src/main/java/io/crate/expression/BaseImplementationSymbolVisitor.java:62-66 | the compiled argument array keeps the arguments' literal leaves, in order |
| LuceneQueryVisitor.I | sql/src/test/java/org/cratedb/action/parser/LuceneQueryVisitorTest.java:303-310 | appending one space per round builds `Indent(num)` |
| LuceneQueryVisitor.IndentIsSpaces | sql/src/test/java/org/cratedb/action/parser/LuceneQueryVisitorTest.java:303-310 | the indentation is exactly `num` spaces, and none when `num` is not positive |
| LuceneQueryVisitor.OccurName | sql/src/test/java/org/cratedb/action/parser/LuceneQueryVisitorTest.java:290-301 | definition only, no contract of its own: the printed name of each occurrence. `OccurNamesAreDistinct` proves the names are distinct |
| LuceneQueryVisitor.OccurNamesAreDistinct | sql/src/test/java/org/cratedb/action/parser/LuceneQueryVisitorTest.java:290-301 | two occurrences print the same name iff they are the same occurrence |
| LuceneQueryVisitor.CreateTree | sql/src/test/java/org/cratedb/action/parser/LuceneQueryVisitorTest.java:251-288 | appending to a builder and recursing into the clauses builds exactly `Tree(query, indent)` |
| LuceneQueryVisitor.TreeStartsIndented | sql/src/test/java/org/cratedb/action/parser/LuceneQueryVisitorTest.java:252-253 | every rendering starts with its indentation |
| LuceneQueryVisitor.HeadStartsClausesTree | sql/src/test/java/org/cratedb/action/parser/LuceneQueryVisitorTest.java:272-283 | a boolean query's clauses are appended after its header line, never in front of it |
| LuceneQueryVisitor.LowerBoundMarkedIffInclusive | sql/src/test/java/org/cratedb/action/parser/LuceneQueryVisitorTest.java:259-265 | "(incl) " is printed before the lower bound iff the range includes it |
| LuceneQueryVisitor.UpperBoundMarkedIffInclusive | sql/src/test/java/org/cratedb/action/parser/LuceneQueryVisitorTest.java:266-271 | "(incl) " is printed before the upper bound iff the range includes it |
| LuceneQueryVisitor.TwoClauseTree | sql/src/test/java/org/cratedb/action/parser/LuceneQueryVisitorTest.java:272-283 | a two-clause boolean query prints its header, then for each clause its occurrence on its own line and its query, both two deeper |
| LuceneQueryVisitor.OneClauseTree | sql/src/test/java/org/cratedb/action/parser/LuceneQueryVisitorTest.java:272-283 | the same for a one-clause boolean query |
| LuceneQueryVisitor.BinaryPredicateTree | sql/src/test/java/org/cratedb/action/parser/LuceneQueryVisitorTest.java:81-122 | AND and OR print as binary `BooleanQuery/1` nodes whose clauses (MUST for AND, SHOULD for OR) are the operands' renderings two deeper |
| LuceneQueryVisitor.LiteralFirstIsMirrored | sql/src/test/java/org/cratedb/action/parser/LuceneQueryVisitorTest.java:184-231 | `value OP column` translates to the same query as `column OP' value`, where `OP'` is the mirrored operator |
| LuceneQueryVisitor.LessThanRange | sql/src/test/java/org/cratedb/action/parser/LuceneQueryVisitorTest.java:125-132 | `column < v` prints as `null to v`, exclusive, for any column and value |
| LuceneQueryVisitor.LessOrEqualRange | sql/src/test/java/org/cratedb/action/parser/LuceneQueryVisitorTest.java:154-161 | `column <= v` prints as `null to (incl) v` |
| LuceneQueryVisitor.GreaterThanRange | sql/src/test/java/org/cratedb/action/parser/LuceneQueryVisitorTest.java:164-171 | `column > v` prints as `v to null` |
| LuceneQueryVisitor.GreaterOrEqualRange | sql/src/test/java/org/cratedb/action/parser/LuceneQueryVisitorTest.java:174-181 | `column >= v` prints as `(incl) v to null` |
| LuceneQueryVisitor.NotEqualShape | sql/src/test/java/org/cratedb/action/parser/LuceneQueryVisitorTest.java:194-204 | `column != v` prints as `BooleanQuery/0` with a MUST match-all anchor and a MUST `BooleanQuery/0` excluding the term. The anchor has no line break, so the next occurrence shares its line |
| LuceneQueryVisitor.TranslationKeepsStructure | sql/src/test/java/org/cratedb/action/parser/LuceneQueryVisitorTest.java:81-204 | nothing is flattened or dropped. Each comparison becomes one term or range query, each AND/OR one boolean query, and each `!=` two more |
| LuceneQueryVisitor.MatchAllQueryGeneration | sql/src/test/java/org/cratedb/action/parser/LuceneQueryVisitorTest.java:45-52 | a statement without WHERE yields the match-all query |
| LuceneQueryVisitor.SimpleTermQueryGeneration | sql/src/test/java/org/cratedb/action/parser/LuceneQueryVisitorTest.java:55-66 | `othercol = 1` yields a term query with field "othercol" and text "1" |
| LuceneQueryVisitor.BoolQueryShape | sql/src/test/java/org/cratedb/action/parser/LuceneQueryVisitorTest.java:81-100 | `x = v1 and (y = v2 or y = v3 or y = v4)`, for any names and values, prints MUST[x, SHOULD[SHOULD[y2, y3], y4]]: the ORs stay nested, not flattened |
| LuceneQueryVisitor.BoolQueryGeneration | sql/src/test/java/org/cratedb/action/parser/LuceneQueryVisitorTest.java:81-100 | the test's exact 13-line text |
| LuceneQueryVisitor.BoolQueryShape2 | sql/src/test/java/org/cratedb/action/parser/LuceneQueryVisitorTest.java:103-122 | `x = v1 and y = v2 or y = v3 or y = v4`, for any names and values, prints SHOULD[SHOULD[MUST[x, y2], y3], y4] |
| LuceneQueryVisitor.BoolQueryGeneration2 | sql/src/test/java/org/cratedb/action/parser/LuceneQueryVisitorTest.java:103-122 | the test's exact 13-line text |
| LuceneQueryVisitor.RangeQueryGenerationLt | sql/src/test/java/org/cratedb/action/parser/LuceneQueryVisitorTest.java:125-191 | `long_field < 1`, `int_field < 1`, `float_field < 1.2` and `1 > long_field` print the asserted texts |
| LuceneQueryVisitor.RangeQueryGenerationLte | sql/src/test/java/org/cratedb/action/parser/LuceneQueryVisitorTest.java:154-214 | `long_field <= 1` and `1 >= long_field` print `null to (incl) 1` |
| LuceneQueryVisitor.RangeQueryGenerationGt | sql/src/test/java/org/cratedb/action/parser/LuceneQueryVisitorTest.java:164-224 | `long_field > 1` and `1 < long_field` print `1 to null` |
| LuceneQueryVisitor.RangeQueryGenerationGte | sql/src/test/java/org/cratedb/action/parser/LuceneQueryVisitorTest.java:174-231 | `long_field >= 1` and `1 <= long_field` print `(incl) 1 to null` |
| LuceneQueryVisitor.NotEqualQueryGeneration | sql/src/test/java/org/cratedb/action/parser/LuceneQueryVisitorTest.java:194-204 | `x != 1` prints the test's exact six-line text |
| AlterRole.AlterRoleMetadata | server/src/main/java/io/crate/role/TransportAlterRoleAction.java:104-123 | four outcomes. (1) A name in neither section gives false and nothing is written. (2) A known name that `RolesMetadata.of` drops gives the null pointer error and nothing is written. (3) A password for a non-user gives the error and nothing is written. (4) Otherwise a fresh roles section, distinct from the old one and holding `put(name, true, hash)` over `RolesMetadata.of`, is stored and the result is true. In all four, the users slot is left as it was. That is a consequence of `of` being given the two sections rather than the builder (see Left out), not a promise of the source |
| AlterRole.AlterFailure | server/src/main/java/io/crate/role/TransportAlterRoleAction.java:113-116 | definition only, no contract of its own: the error `alterRole` raises for a known name. `AlterRoleMetadata` and `AlterRoleTask.Execute` prove when the update fails and with which error |
| AlterRole.CheckMinNodeVersion | server/src/main/java/io/crate/role/TransportAlterRoleAction.java:76-78 | definition only, no contract of its own: the guard. `GuardPassesFromFiveSix` proves when it passes and which error it gives otherwise |
| AlterRole.GuardPassesFromFiveSix | server/src/main/java/io/crate/role/TransportAlterRoleAction.java:76-78 | the guard passes exactly for major > 5, or major 5 with minor >= 6. Otherwise it fails with the "upgraded to 5.6" illegal-state error |
| AlterRole.AlterRoleTask.constructor | server/src/main/java/io/crate/role/TransportAlterRoleAction.java:80-83 | a new task's flag starts as true |
| AlterRole.AlterRoleTask.Execute | server/src/main/java/io/crate/role/TransportAlterRoleAction.java:86-95 | the task fails iff the name is known and `AlterFailure` reports an error, and then with that error, leaving the flag unchanged. On success the flag records whether the name was known, and users and privileges are carried over. That holds because `of` is given the two sections rather than the builder (see Left out), not because the source promises it. An unknown name leaves the metadata as it was. A known name yields a roles section holding `put(name, true, hash)` over `RolesMetadata.of` of the current sections |
| AlterRole.AlterRoleTask.NewResponse | server/src/main/java/io/crate/role/TransportAlterRoleAction.java:97-100 | definition only, no contract of its own: the response holds the acknowledgement and the flag that `AlterRoleTask.Execute` recorded |
| RoleMetadata.UserOf | server/src/main/java/io/crate/role/RolesService.java:92 | definition only, no contract of its own: a user role. Its use is proved in `Roles.UsersBranchEntries` |
| RoleMetadata.RoleOf | server/src/main/java/io/crate/role/RolesService.java:106 | definition only, no contract of its own: a role with its user flag. Its use is proved in `Roles.RolesBranchEntries` |
| RoleMetadata.UsersPrivilegesMetadata.GetUserPrivileges | server/src/main/java/io/crate/role/RolesService.java:86 | definition only, no contract of its own: a map lookup, none when there is no entry. Its use is proved in `Roles.FetchPrivileges` and `Roles.GetRoles` |
| RoleMetadata.UsersPrivilegesMetadata.CreatePrivileges | server/src/main/java/io/crate/role/RolesService.java:89 | the section gains (or replaces) the entry for the name, nothing else changes |
| Roles.PrivilegesFor | server/src/main/java/io/crate/role/RolesService.java:84-91 | definition only, no contract of its own: a derived role's privileges. Proved in `Roles.MissingPrivilegesAreNull`, `Roles.UsersBranchEntries` and `Roles.RolesBranchEntries` |
| Roles.SourceNames | server/src/main/java/io/crate/role/RolesService.java:80-108 | definition only, no contract of its own: the names roles are derived from. Proved in `Roles.UsersSectionShadowsRoles`, `Roles.TableKeys` and `Roles.NoSectionsYieldSuperuserOnly` |
| Roles.WithEmptyPrivileges | server/src/main/java/io/crate/role/RolesService.java:85-91 | definition only, no contract of its own: the privileges section once the missing sets are created. `Roles.GetRoles` proves the loop leaves exactly this |
| Roles.GetRoles | server/src/main/java/io/crate/role/RolesService.java:75-110 | the loops return exactly the values of `RoleTable`. A present privileges section ends up with an empty set for every source name that had no entry |
| Roles.FetchPrivileges | server/src/main/java/io/crate/role/RolesService.java:84-91 | one lookup yields `PrivilegesFor` of the section as it was before the loop, and creates the missing entry |
| Roles.StepTable | server/src/main/java/io/crate/role/RolesService.java:92 | each put extends the partial table with that name's derived role, replacing any earlier entry, the seed included |
| Roles.NoSectionsYieldSuperuserOnly | server/src/main/java/io/crate/role/RolesService.java:78-109 | with neither section the result is exactly `{CRATE_USER}` |
| Roles.UsersSectionShadowsRoles | server/src/main/java/io/crate/role/RolesService.java:80-94 | with a users section present the roles section does not matter |
| Roles.TableKeys | server/src/main/java/io/crate/role/RolesService.java:78-108 | the table's names are the source names plus `crate`, and each role carries its own name |
| Roles.SuperuserSeed | server/src/main/java/io/crate/role/RolesService.java:79-106 | the seeded superuser stays unless the source has an entry named `crate`, which then replaces it |
| Roles.UsersBranchEntries | server/src/main/java/io/crate/role/RolesService.java:80-93 | from a users section each name becomes a user with its password and stored privileges |
| Roles.RolesBranchEntries | server/src/main/java/io/crate/role/RolesService.java:94-107 | from a roles section each name keeps its user flag and password and gets its stored privileges |
| Roles.MissingPrivilegesAreNull | server/src/main/java/io/crate/role/RolesService.java:84-104 | with no privileges section, or no entry for the name, the derived role has null privileges |
| Roles.OneRolePerName | server/src/main/java/io/crate/role/RolesService.java:109 | every returned role is the table's entry for its own name |
| Roles.RolesService.constructor | server/src/main/java/io/crate/role/RolesService.java:44 | the cache starts as `{CRATE_USER}` |
| Roles.RolesService.Roles | server/src/main/java/io/crate/role/RolesService.java:51-54 | definition only, no contract of its own: the accessor for the cache. What the cache holds is proved by `Roles.RolesService.constructor` and `Roles.RolesService.ClusterChanged` |
| Roles.RolesService.ClusterChanged | server/src/main/java/io/crate/role/RolesService.java:57-72 | if one of the three section references changed, the cache becomes `getRoles` of the new sections. Otherwise the cache and the privileges section are left unchanged |
| PrivilegesRequests.StringTokens | server/src/main/java/io/crate/role/PrivilegesRequest.java:68-70 | definition only, no contract of its own: one string token per name. What it means is proved by `PrivilegesRequests.PrivilegesRequest.WriteTo`, `PrivilegesRequests.DecodeEncode` and `PrivilegesRequests.ReadStringsOfWritten` |
| PrivilegesRequests.PrivilegeTokens | server/src/main/java/io/crate/role/PrivilegesRequest.java:72-74 | definition only, no contract of its own: one privilege token per privilege. What it means is proved by `PrivilegesRequests.PrivilegesRequest.WriteTo`, `PrivilegesRequests.DecodeEncode` and `PrivilegesRequests.ReadPrivilegesOfWritten` |
| PrivilegesRequests.ReadStringsOfWritten | server/src/main/java/io/crate/role/PrivilegesRequest.java:54-56 | reading `n` strings back from written names yields the names and leaves exactly what followed |
| PrivilegesRequests.ReadStringsConsumed | server/src/main/java/io/crate/role/PrivilegesRequest.java:53-56 | a successful read of `n` strings yields `n` names and consumed exactly their tokens |
| PrivilegesRequests.ReadPrivilegesOfWritten | server/src/main/java/io/crate/role/PrivilegesRequest.java:58-61 | reading `n` privileges back from written ones yields them and leaves exactly what followed |
| PrivilegesRequests.ReadPrivilegesConsumed | server/src/main/java/io/crate/role/PrivilegesRequest.java:58-61 | a successful read of `n` privileges yields `n` of them and consumed exactly their tokens |
| PrivilegesRequests.DecodeEncode | server/src/main/java/io/crate/role/PrivilegesRequest.java:50-75 | reading what `writeTo` wrote gives the same header, names and privileges, in order, and leaves what followed |
| PrivilegesRequests.EncodeDecode | server/src/main/java/io/crate/role/PrivilegesRequest.java:50-62 | whatever the reader accepts is exactly the encoding of what it built plus the unread rest, so the lists have the lengths of the counts read |
| PrivilegesRequests.StreamOutput.WriteHeader | server/src/main/java/io/crate/role/PrivilegesRequest.java:66 | appends one header token |
| PrivilegesRequests.StreamOutput.WriteVInt | server/src/main/java/io/crate/role/PrivilegesRequest.java:67 | appends one count token |
| PrivilegesRequests.StreamOutput.WriteString | server/src/main/java/io/crate/role/PrivilegesRequest.java:69 | appends one string token |
| PrivilegesRequests.StreamOutput.WritePrivilege | server/src/main/java/io/crate/role/PrivilegesRequest.java:73 | appends one privilege token |
| PrivilegesRequests.StreamInput.ReadHeader | server/src/main/java/io/crate/role/PrivilegesRequest.java:51 | reads one header token, or fails as `TakeHeader` does |
| PrivilegesRequests.StreamInput.ReadVInt | server/src/main/java/io/crate/role/PrivilegesRequest.java:52 | reads one count token, or fails as `TakeVInt` does |
| PrivilegesRequests.StreamInput.ReadString | server/src/main/java/io/crate/role/PrivilegesRequest.java:55 | reads one string token, or fails as `TakeString` does |
| PrivilegesRequests.StreamInput.ReadPrivilege | server/src/main/java/io/crate/role/PrivilegesRequest.java:60 | reads one privilege token, or fails as `TakePrivilege` does |
| PrivilegesRequests.PrivilegesRequest.constructor | server/src/main/java/io/crate/role/PrivilegesRequest.java:37-48 | the accessors return the collections given to the constructor, unchanged |
| PrivilegesRequests.PrivilegesRequest.FromStream | server/src/main/java/io/crate/role/PrivilegesRequest.java:50-62 | the request holds the header and lists that were read |
| PrivilegesRequests.PrivilegesRequest.WriteTo | server/src/main/java/io/crate/role/PrivilegesRequest.java:64-75 | appends exactly `Encode(header, names, privileges)`: header, name count, names in order, privilege count, privileges in order |
| PrivilegesRequests.ReadPrivilegesRequest | server/src/main/java/io/crate/role/PrivilegesRequest.java:50-62 | the stream constructor fails iff `Decode` does, with the same error. Otherwise it builds a fresh request holding `Decode`'s header and lists and leaves the stream just after the last privilege |

## Left out

- The query visitor that builds the Lucene queries (`QueryVisitor`) is not part of this model. Its translation is reconstructed from the test's assertions as `PredicateQuery`.
  - The SQL parser's precedence is taken as given in the `Predicate` tree.
  - The mapping setup and index schema are not modelled, and neither are the type and encoding errors.
  - `NOT` is not modelled: no assertion shows it.
- Bound and term values are opaque strings. The float case (`1.2`) is its text, and no floating point is modelled.
- The `"INVALID"` fallback of `o` is not modelled: the three occurrences are all there is.
- `OtherQuery` stands for any other query's `toString()`. Only match-all has a fixed text (`*:*`).
- The registry (`getQualified`), `Scalar.compile`, `visitReference`, `RolesMetadata.of` and `RolesMetadata.put` are not modelled: their code is not part of this model. They are parameters of the model. `Scalar.compile` and `visitReference` may fail, and their errors are passed on.
- `TransactionContext` and `NodeContext`, which the function expression also holds, are not modelled.
- The visitor's context argument `C` is not modelled.
- LuceneQueryVisitor.LowerBoundMarkedIffInclusive: is proved only for lower-bound texts that do not start with `(`, as no number does. Without that, a text starting with "(incl) " would look like the marker.
- AlterRole.AlterRoleMetadata: the Java assertion that the new roles section is not *equal* to the old one is stated only as "a fresh object, different from the old one". Section equality depends on `put`, whose code is not part of this model.
- `RolesMetadata.of`'s use of the builder, and the `contains` methods, are not modelled. `of` is given the users and roles sections as values, so in the model it cannot change the builder's users slot. `contains` is taken to be key membership.
- `UsersPrivilegesMetadata.getUserPrivileges` and `createPrivileges` are not part of this model. `RoleMetadata.UsersPrivilegesMetadata.GetUserPrivileges` and `RoleMetadata.UsersPrivilegesMetadata.CreatePrivileges` take them to be a map lookup and a map update. `Roles.GetRoles`, `Roles.FetchPrivileges` and `Roles.MissingPrivilegesAreNull` rest on that reading.
- `Version.onOrAfter` is not part of this model. `AlterRole.OnOrAfter` takes it to compare major, then minor, then revision. `AlterRole.GuardPassesFromFiveSix` rests on that reading.
- `Role.userOf` and `Role.of` are not part of this model. `RoleMetadata.UserOf` and `RoleMetadata.RoleOf` take them to be plain record constructors. `Roles.TableKeys`, `Roles.MissingPrivilegesAreNull` and `Roles.OneRolePerName` rest on that reading.
- Cluster plumbing is not modelled: `submitStateUpdateTask`, acknowledgement, `checkBlock`, `executor`, `read`, and building the new cluster state from the builder.
- Listener registration and the `volatile` publication of the role cache are not modelled. These are concurrency and framework wiring, so the cache is a plain field.
- `Role` and `SecureHash` are reduced to the fields the role code touches. The superuser's privileges and password fields are taken as null.
- Byte encodings are not modelled: VInts, strings, `Privilege.writeTo`, and the acknowledged-request header all become single tokens.
- The stream's position after a failed read is not modelled.
- A negative count is refused the way `new ArrayList<>(negative)` refuses it, before anything more is read.
- The order in which `HashMap` iterates its entries is not modelled. Each loop may take the names in any order, and the result is proved the same for every order.
