# Kolab_Server decision core in Dafny

This project models the pure decision logic of Horde's `Kolab_Server`. That
package maps LDAP directory entries to typed Kolab objects (users, addresses,
administrators, groups, shared folders, ...). The model covers four parts.

- **Object-type resolution and UID generation** (`KolabStructure`,
  `LdapServer`, `ObjectTypes`).
  - The Kolab structure decides an entry's type from its lower-cased object
    classes, its group memberships and its UID.
  - In reverse, it places a new object in a sub-container (`cn=internal`,
    `cn=groups`, `cn=resources`, `cn=external`) of the base DN.
  - The generic LDAP resolver scans the object classes from last to first.
    Its `top` fallback looks only at the first listed class.
  - Round-trip lemmas show that generated address and user UIDs resolve back
    to addresses and users. As written, the user round trip needs an id and
    base DN free of `cn=external`, because the address test is a substring
    test. With the address test corrected to "the parent container is
    `cn=external` below the base DN", it holds for every id that does not
    itself end in `,cn=external` (see Findings).
- **Filter construction** (`LegacyQuery`, `QueryLdap`, `FilterSyntax`).
  - The Turba-style `searchQuery` builds RFC 4515 filter text from a PHP
    criteria array.
  - The typed criteria compiler makes one filter-library call per node and
    turns any library error into an `INVALID_QUERY` failure.
  - Composite filters are rendered as section 3 of RFC 4515 writes them.
  - The typed compiler produces a filter that means what the criteria mean.
  - For well-formed legacy arrays, the corrected reading of `searchQuery`
    (every test honours its own `begin` flag) produces the text of the
    filter the criteria denote. The code as written produces the same text
    whenever no test nested in a list below the top group carries `begin`,
    and loses the flag otherwise (see Findings).
- **Save and list post-processing** (`LdapServer`).
  - `read` checks its lookup result.
  - `getObjectClasses` lower-cases the classes.
  - `save` splits an existing entry's change set into deletions and
    replacements.
  - `listObjects` builds its search request and drops members of the
    type's required group, keeping result order.
- **Attribute decorators** (`Attribute`).
  - A decorator answers all seven methods of the attribute contract by
    asking the one attribute it wraps.
  - Any stack of decorators is observationally equal to the attribute at
    its bottom.

PHP values are modelled as `PhpValues.Value` (null, string, or an ordered
array of key/value entries), together with `empty()`, `isset()`,
`strtolower()` and `strpos()`. Each exception becomes an `Outcomes.Err`. The
directory client, the class loader, the filter library, `Horde_LDAP::buildClause`
and the charset conversion are parameters.

## Model

| member | source | states |
|---|---|---|
| PhpValues.Lookup | lib/Horde/Kolab/Server/Ldap.php:453-458 | A PHP array lookup yields a stored entry's value, and null when no entry has the key |
| PhpValues.LookupFirst | lib/Horde/Kolab/Server/Ldap.php:453-458 | A lookup finds the first entry stored under the key |
| PhpValues.Lower | lib/Horde/Kolab/Server/Ldap.php:402-403 | `strtolower` keeps the length, turns each upper-case letter into its lower-case form (code point + 32), and leaves every other character as it is |
| PhpValues.IndexOf | lib/Horde/Kolab/Server/Structure/Kolab.php:104 | `strpos` finds the first occurrence at or after the start, or reports that there is none |
| PhpValues.ContainsInfix | lib/Horde/Kolab/Server/Structure/Kolab.php:104 | A string built around a word contains that word |
| PhpValues.ContainsAcrossComma | lib/Horde/Kolab/Server/Structure/Kolab.php:104 | A comma-free word found in `a,b` occurs in `a` or in `b` |
| FilterSyntax.CombinedAsString | lib/Horde/Kolab/Server/Ldap.php:424-427 | A composite filter renders as `(`, its connective, its parts in order, `)` |
| ObjectTypes.SupportedObjects | lib/Horde/Kolab/Server/Structure/Kolab.php:36-57 | The structure supports 17 distinct object types and every variant is among them |
| ObjectTypes.ClassRegistry | lib/Horde/Kolab/Server/Ldap.php:504-505 | A lower-case class loads exactly the type it is the marker of, and nothing else loads |
| LdapServer.ReadOptions | lib/Horde/Kolab/Server/Ldap.php:143-146 | `read` searches at base scope and restricts the attributes only when some are asked for |
| LdapServer.Read | lib/Horde/Kolab/Server/Ldap.php:148-164 | A read succeeds exactly when the result holds a non-failed entry under the DN. Otherwise it fails with the library error, "empty result", "no result for DN" or the entry's own failure |
| LdapServer.GetObjectClasses | lib/Horde/Kolab/Server/Ldap.php:395-405 | The classes are the lower-cased `objectClass` values, index by index. A read failure passes through, and a missing attribute fails |
| LdapServer.ObjectClassesAreLowerCase | lib/Horde/Kolab/Server/Ldap.php:402-404 | No returned class contains an upper-case letter |
| LdapServer.ValuesEmpty | lib/Horde/Kolab/Server/Ldap.php:187-193 | The inner scan reports "empty" iff every value of an array is PHP-empty. A value that is not an array is never iterated, so it is "empty" |
| LdapServer.Partition | lib/Horde/Kolab/Server/Ldap.php:185-198 | The loop produces, in order, the keys whose values are all empty and the changes kept for replacement |
| LdapServer.Save | lib/Horde/Kolab/Server/Ldap.php:176-206 | A new entry is added whole. An existing one is modified by the delete/replace partition of its changes |
| LdapServer.DeletedKeysMembers | lib/Horde/Kolab/Server/Ldap.php:185-198 | A key is deleted iff some change under it has only empty values |
| LdapServer.ReplacedMembers | lib/Horde/Kolab/Server/Ldap.php:185-200 | A change is replaced iff it is in the change set and has a non-empty value. Its values pass unchanged |
| LdapServer.PartitionSizes | lib/Horde/Kolab/Server/Ldap.php:185-198 | Every change lands in exactly one of the two lists |
| LdapServer.PartitionExact | lib/Horde/Kolab/Server/Ldap.php:185-200 | For distinct keys, a key is deleted iff all its values are empty. A key without values, or with a string or null instead of an array, is deleted. Deletions and replacements are disjoint and together are exactly the original keys |
| LdapServer.ScalarChangeDeleted | lib/Horde/Kolab/Server/Ldap.php:186-197 | A change given as a single string, even a non-empty one, is deleted and not replaced |
| LdapServer.ListSearch | lib/Horde/Kolab/Server/Ldap.php:222-244 | The listing search runs at subtree scope with the type's filter. `base_dn` defaults to the server base. `attributes` overrides the type's supported attributes |
| LdapServer.ListObjects | lib/Horde/Kolab/Server/Ldap.php:244-285 | A failed search fails the listing. Otherwise the hits not skipped for the required group become objects, in result order |
| LdapServer.KeptMembers | lib/Horde/Kolab/Server/Ldap.php:276-284 | An object is listed iff a hit that is not a member of the required group produced it |
| LdapServer.KeptAppend | lib/Horde/Kolab/Server/Ldap.php:276-285 | Listing preserves result order: the objects of consecutive hit sequences follow each other |
| LdapServer.KeptWithoutGroup | lib/Horde/Kolab/Server/Ldap.php:271-284 | Without a required group every hit is listed, one object per hit, in order |
| LdapServer.LastRegistered | lib/Horde/Kolab/Server/Ldap.php:501-509 | The reversed scan finds the last listed class that loads a type, and no later class loads one |
| LdapServer.DetermineType | lib/Horde/Kolab/Server/Ldap.php:498-515 | The type is that of the last registered class. Otherwise it is the base object iff the first listed class is `top`. Otherwise resolution fails with an unknown-type error for the UID |
| LdapServer.MostSpecificRegisteredWins | lib/Horde/Kolab/Server/Ldap.php:501-509 | An unregistered class listed last does not hide a registered class before it |
| LdapServer.ClassRegistryResolvesMostSpecific | lib/Horde/Kolab/Server/Ldap.php:498-515 | With the registry of the supported objects, `top, person, organizationalperson` resolves to an organizational person, also with an unknown class listed after it. `top` followed only by unknown classes resolves to the base object |
| LdapServer.TopFallbackSeesFirstClassOnly | lib/Horde/Kolab/Server/Ldap.php:510-514 | `top` rescues an unknown entry only when it is listed first |
| LdapServer.GenerateServerUid | lib/Horde/Kolab/Server/Ldap.php:528-534 | The UID is the id, a comma, and the base DN |
| KolabStructure.DetermineType | lib/Horde/Kolab/Server/Structure/Kolab.php:69-109 | For non-persons: group, then pop3 account, then shared folder, then the parent resolver. Given its group memberships, a person never fails. For persons, administrator beats maintainer beats domain maintainer. The rest are addresses iff the UID contains `cn=external`, and users otherwise |
| KolabStructure.DetermineTypeExact | lib/Horde/Kolab/Server/Structure/Kolab.php:104-108 | The corrected resolver decides exactly as `DetermineType` except for unprivileged persons. For those it gives an address iff the UID's parent is `cn=external` below the base DN, and a user otherwise |
| KolabStructure.GenerateServerUid | lib/Horde/Kolab/Server/Structure/Kolab.php:122-163 | User UIDs take the container of their user type (plain when unset, 0 or unknown). Address UIDs are always under `cn=external`. Invisible groups and distribution lists go under `cn=internal`. All other types are plain |
| KolabStructure.UserSegmentsAreInternal | lib/Horde/Kolab/Server/Structure/Kolab.php:128-139 | None of the user containers mentions `cn=external` |
| KolabStructure.AddressRoundTrip | lib/Horde/Kolab/Server/Structure/Kolab.php:104-146 | A generated address UID resolves back to an address for every unprivileged Kolab person |
| KolabStructure.UserRoundTrip | lib/Horde/Kolab/Server/Structure/Kolab.php:104-142 | A generated user UID, of any user type, resolves back to a user when neither id nor base mentions `cn=external` |
| KolabStructure.UserUidIsInternal | lib/Horde/Kolab/Server/Structure/Kolab.php:125-142 | A generated user UID mentions `cn=external` only if its id or the base DN does |
| KolabStructure.SegmentedUidIsInternal | lib/Horde/Kolab/Server/Structure/Kolab.php:128-139 | Joining an id, a container and the base DN, none mentioning `cn=external`, does not create it |
| KolabStructure.ResolvesToUser | lib/Horde/Kolab/Server/Structure/Kolab.php:104-108 | An unprivileged Kolab person outside `cn=external` is a user |
| KolabStructure.NotContainedAcrossComma | lib/Horde/Kolab/Server/Ldap.php:532 | Joining two parts free of `cn=external` with a comma does not create it |
| KolabStructure.AdministratorBeatsExternal | lib/Horde/Kolab/Server/Structure/Kolab.php:89-105 | Group membership is checked before the tree position: an administrator under `cn=external` stays an administrator |
| KolabStructure.ExternalSubstringMisreadsUser | lib/Horde/Kolab/Server/Structure/Kolab.php:104 | As written, a standard user with id `cn=externalaudit` resolves to an address. The corrected resolver reads it as a user |
| KolabStructure.ExactIsNarrower | lib/Horde/Kolab/Server/Structure/Kolab.php:104 | Every UID in the external container also passes the substring test |
| KolabStructure.ContainerNotExternal | lib/Horde/Kolab/Server/Structure/Kolab.php:128-139 | No UID built from a user container ends in `,cn=external` |
| KolabStructure.ExactAddressRoundTrip | lib/Horde/Kolab/Server/Structure/Kolab.php:141-144 | With the corrected test, a generated address UID resolves back to an address for every unprivileged Kolab person |
| KolabStructure.ExactUserRoundTrip | lib/Horde/Kolab/Server/Structure/Kolab.php:123-140 | With the corrected test, a generated user UID of any user type resolves back to a user, for any base DN, unless the id itself ends in `,cn=external` |
| KolabStructure.PlacedOutsideExternal | lib/Horde/Kolab/Server/Ldap.php:532 | An id placed below the base DN lies in the external container only if the id ends in `,cn=external` |
| KolabStructure.GroupRoundTrip | lib/Horde/Kolab/Server/Structure/Kolab.php:73-76 | A Kolab group that is not a Kolab person resolves to a Kolab group wherever its UID was placed |
| QueryLdap.OperatorNamesDistinct | lib/Horde/Kolab/Server/Query/Ldap.php:69-156 | The seven single converters hand the library seven distinct operator names |
| QueryLdap.ConvertSingle | lib/Horde/Kolab/Server/Query/Ldap.php:168-177 | A single element becomes the created item filter, or an `INVALID_QUERY` failure carrying the library's error |
| QueryLdap.Combine | lib/Horde/Kolab/Server/Query/Ldap.php:242-244 | A combination the library accepts is the composite of the given parts. Otherwise it is an `INVALID_QUERY` failure |
| QueryLdap.Convert | lib/Horde/Kolab/Server/Query/Ldap.php:188-245 | Single elements go through their own operator name. `Not` without elements fails with a missing operand, and otherwise yields a one-part `!`. `And` and `Or` yield `&` and `|` with one part per element. Every failure is `INVALID_QUERY` or a missing operand |
| QueryLdap.ConvertFrom | lib/Horde/Kolab/Server/Query/Ldap.php:238-241 | The elements of a group convert into one part each |
| QueryLdap.ToString | lib/Horde/Kolab/Server/Query/Ldap.php:54-58 | The string form is the rendering of the converted root, or the conversion's failure |
| QueryLdap.ConvertFromParts | lib/Horde/Kolab/Server/Query/Ldap.php:238-243 | A group's elements convert iff every one of them converts |
| QueryLdap.ConvertFromValues | lib/Horde/Kolab/Server/Query/Ldap.php:238-241 | The parts are the elements' conversions, in order |
| QueryLdap.ConvertFromStep | lib/Horde/Kolab/Server/Query/Ldap.php:239-241 | Converting a group puts the first element's conversion in front of the rest |
| QueryLdap.ConvertFromFirstFailure | lib/Horde/Kolab/Server/Query/Ldap.php:239-241 | A failing group reports the failure of its first failing element. Every element before it converted |
| QueryLdap.NotConvertsFirst | lib/Horde/Kolab/Server/Query/Ldap.php:188-194 | `Not` converts iff its first element converts and the library accepts negating it. Its one part is that element's conversion, and either failure is the failure of the `Not` |
| QueryLdap.NotIgnoresRest | lib/Horde/Kolab/Server/Query/Ldap.php:188-194 | `Not` converts only its first element |
| QueryLdap.GroupFailsOnChildFailure | lib/Horde/Kolab/Server/Query/Ldap.php:234-245 | A failing element anywhere fails the whole group |
| QueryLdap.GroupConvertsEveryChild | lib/Horde/Kolab/Server/Query/Ldap.php:234-245 | A group converts iff all elements convert and the library accepts the combination. Its parts are the elements' conversions |
| QueryLdap.ConvertPreservesMeaning | lib/Horde/Kolab/Server/Query/Ldap.php:188-245 | Read as RFC 4515 `&`, `|`, `!`, the converted filter holds of an entry iff the criteria do |
| QueryLdap.GroupString | lib/Horde/Kolab/Server/Query/Ldap.php:54-58 | A converted group renders as its connective around its parts' renderings |
| LegacyQuery.Compile | lib/Horde/Kolab/Server/Ldap.php:416-438 | Empty criteria give `(objectclass=*)`. Non-empty ones give the top-level pieces. A non-empty source filter `f` always wraps the result as `(&(f)...)` |
| LegacyQuery.TopLevelIgnoresOtherKeys | lib/Horde/Kolab/Server/Ldap.php:421-428 | Top-level entries under keys other than `OR` and `AND` contribute nothing |
| LegacyQuery.TopLevelAppend | lib/Horde/Kolab/Server/Ldap.php:421-428 | Top-level entries contribute in input order |
| LegacyQuery.EncodedTestIsClause | lib/Horde/Kolab/Server/Ldap.php:458-466 | A test entry becomes one clause of its field, operator, converted value and its own `begin` flag |
| LegacyQuery.GroupItem | lib/Horde/Kolab/Server/Ldap.php:453-456 | A nested `OR`/`AND` group renders as `(|`/`(&` around the pieces of its list |
| LegacyQuery.ItemDenotes | lib/Horde/Kolab/Server/Ldap.php:449-486 | A well-formed criterion compiles to the rendering of the filter it denotes: always under the corrected reading, and as written when no test nested in a list carries `begin` |
| LegacyQuery.ListFromDenotes | lib/Horde/Kolab/Server/Ldap.php:468-481 | The tests of a list compile to the concatenated renderings of their filters, in input order: always under the corrected reading, and as written when no listed test carries `begin` |
| LegacyQuery.TestsStep | lib/Horde/Kolab/Server/Ldap.php:468-481 | The test loop puts each item's piece in front of the rest's, on the same conditions |
| LegacyQuery.TestPieceIsItem | lib/Horde/Kolab/Server/Ldap.php:469-479 | Inside a list without a `begin` entry, a well-formed entry contributes what it contributes anywhere else. As written this holds only for a test that does not carry `begin` itself |
| LegacyQuery.TopListDenotes | lib/Horde/Kolab/Server/Ldap.php:449-456 | The entries of the top group's list compile to the concatenated renderings of their filters. The tests listed directly there may carry `begin` even as written |
| LegacyQuery.TopLevelDenotes | lib/Horde/Kolab/Server/Ldap.php:421-428 | The top level of one well-formed group compiles to the rendering of its filter, on the same conditions |
| LegacyQuery.SearchQueryDenotes | lib/Horde/Kolab/Server/Ldap.php:416-487 | Under the corrected reading, criteria of one well-formed group compile to the rendering of the filter they denote, AND-wrapped by a non-empty source filter |
| LegacyQuery.SearchQueryAsWrittenDenotes | lib/Horde/Kolab/Server/Ldap.php:416-487 | The code as written gives the same text as the corrected reading, and so the denoted filter, whenever no test nested in a list below the top group carries `begin` |
| LegacyQuery.NestedBeginKept | lib/Horde/Kolab/Server/Ldap.php:468-481 | Read from its own entry, a nested prefix test asks for a prefix clause |
| LegacyQuery.NestedBeginLostAsWritten | lib/Horde/Kolab/Server/Ldap.php:479 | As written, a prefix test two groups deep reads `begin` from its list and asks for a plain clause |
| LegacyQuery.NestedBeginIgnoredAsWritten | lib/Horde/Kolab/Server/Ldap.php:479 | The as-written and corrected compilers differ on well-formed criteria |
| Attribute.Wrap | lib/Horde/Kolab/Server/Object/Attribute/Decorator.php:44-48 | Each decorator adds one level around the attribute it holds |
| Attribute.Value | lib/Horde/Kolab/Server/Object/Attribute/Decorator.php:55-58 | `value()` is the concrete attribute's value or failure |
| Attribute.Update | lib/Horde/Kolab/Server/Object/Attribute/Decorator.php:69-72 | `update` hands the same changes to the concrete attribute and returns its answer unchanged |
| Attribute.GetObject | lib/Horde/Kolab/Server/Object/Attribute/Decorator.php:79-82 | `getObject` is the concrete attribute's object |
| Attribute.GetInternalName | lib/Horde/Kolab/Server/Object/Attribute/Decorator.php:89-92 | `getInternalName` is the concrete attribute's internal name |
| Attribute.GetExternalName | lib/Horde/Kolab/Server/Object/Attribute/Decorator.php:99-102 | `getExternalName` is the concrete attribute's external name |
| Attribute.IsEmpty | lib/Horde/Kolab/Server/Object/Attribute/Decorator.php:111-114 | `isEmpty` is the concrete attribute's answer on the same changes |
| Attribute.Consume | lib/Horde/Kolab/Server/Object/Attribute/Decorator.php:124-127 | `consume` leaves the caller's changes exactly as the concrete attribute's `consume` does |
| Attribute.RootOfWrap | lib/Horde/Kolab/Server/Object/Attribute/Decorator.php:36-48 | Wrapping keeps the concrete attribute at the bottom of the chain |
| Attribute.DecoratorDelegates | lib/Horde/Kolab/Server/Object/Attribute/Decorator.php:55-127 | One decorator answers all seven methods exactly as the attribute it holds |
| Attribute.WrapIsTransparent | lib/Horde/Kolab/Server/Object/Attribute/Decorator.php:36-127 | Any number of decorators is observationally equal to the wrapped attribute, on every change map |
| Attribute.ChainNormalForm | lib/Horde/Kolab/Server/Object/Attribute/Decorator.php:36-48 | Every attribute is its concrete attribute under as many decorators as its depth |
| Attribute.ChainAnswersAsRoot | lib/Horde/Kolab/Server/Object/Attribute/Interface.php:30-88 | A chain of any depth answers the seven contract methods as its concrete attribute |
| Attribute.ConsumeContractPreserved | lib/Horde/Kolab/Server/Object/Attribute/Interface.php:80-88 | If the concrete attribute's `consume` only deletes entries, so does any decorator chain over it |

## Left out

- LDAP transport is not modelled. This covers `connect`, the search, add and modify calls, and the schema lookups (`_getSchema`, `getObjectclassSchema`, `getAttributeSchema`). Search results are inputs; save and search requests are outputs.
- Dynamic class loading (`loadClass`, class-name building with `ucfirst`) is replaced by a registry from lower-case class names to variants.
- The parent `determineType` of the LDAP structure base class is a parameter of `KolabStructure.DetermineType`. That class is not part of this model.
- `KolabStructure.GenerateServerUid` uses the `"%s,%s"` generator of the LDAP server as its parent.
- Group membership (`getGroups`, `isMember` of the required group) is an input sequence or set. The failure of fetching the required group is not modelled.
- KolabStructure.DetermineType: the group memberships are an input that cannot fail. In the source, the directory search behind `getGroups` (Kolab.php:89) can throw, and `determineType` then throws too. "A person never fails" holds only given the memberships.
- KolabStructure.UserRoundTrip: as written, it requires that neither the id nor the base DN contains `cn=external`. The substring test at Kolab.php:104 reads any such user as an address; `KolabStructure.ExternalSubstringMisreadsUser` shows one. The corrected round trip is `KolabStructure.ExactUserRoundTrip`.
- `KolabStructure.DetermineType` takes the object classes as input. The failure of reading them is modelled by `LdapServer.GetObjectClasses`.
- Sorting and `from`/`to` paging in `listObjects` are not modelled: the sort parameter is carried but unused in the source. At Ldap.php:266 the `to` parameter is even assigned to `$sort`, which changes nothing observable.
- `Horde_LDAP::buildClause`, `String::convertCharset` and `NLS::getCharset` are parameters (`LegacyQuery.ClauseEnv`). So are `Net_LDAP2_Filter::create` and the acceptance decision of `Net_LDAP2_Filter::combine` (`QueryLdap.FilterLibrary`). These are foreign code.
- The source-wide filter of `searchQuery` is a string in which "" and "0" mean "none", as PHP's `empty()` reads it.
- Array keys are compared strictly, as PHP 8 does. Under PHP 5 the integer key 0 would also equal `'OR'` at the top level of `searchQuery`.
- Looking up a key in a non-array value yields null. This matches how `empty()` and `isset()` read such offsets, but not the plain reads `$test['field']`, `$test['op']` and `$test['test']` at Ldap.php:474-478. When an entry of a test list is a string, PHP 5 and 7 read the string's first character there (with a warning), and PHP 8 throws. The model instead hands null field, operator and value to the clause builder. It follows neither version for such malformed criteria; well-formed criteria never reach this case.
- Strings are sequences of characters, and `strtolower` lower-cases only ASCII `A`-`Z`. PHP strings are bytes, and before PHP 8.2 `strtolower` also lower-cases locale-dependent bytes above 0x7F. Object-class names are ASCII, so nothing modelled here depends on the difference.
- LegacyQuery.ItemDenotes: proved for well-formed criteria only. An empty nested group (`OR => []`) falls through to the test loop and produces a clause built from null field, operator and value.
- The user-type constants (0 standard, 1 internal, 2 group, 3 resource) and the `objectClass` attribute name come from class files that are not part of this model. `user_type` is an optional integer, so PHP's loose comparison of strings with integers is not modelled.
- A `Not` element without elements is a fatal error in PHP (a method call on null). It is modelled as the failure `MissingOperand`.
- Connection/Simpleldap.php is not modelled: it is plumbing that returns the same handle for reading and writing.
- Object/Attribute/Createtimestampdate.php is not modelled: it only wraps a value in a foreign date object.
- The constructor's configuration merge and the static attribute cache are not modelled. They are configuration and caching glue.
- Concrete attributes are described by what their methods answer. Their own implementations are not part of this model.
- Attribute.ConsumeContractPreserved: the interface says `consume` deletes "this attribute's value" but does not name the keys, so only "deletes and changes nothing else" is stated.

## Findings

| source | as written | input that shows it | evidently intended | confidence | as-written member | corrected member |
|---|---|---|---|---|---|---|
| lib/Horde/Kolab/Server/Structure/Kolab.php:104 | Any entry whose UID contains `cn=external` anywhere (`strpos`) is an address | A standard user with id `cn=externalaudit` gets the UID `cn=externalaudit,<base>` and resolves to an address | An address is an entry of the `cn=external` container below the base DN, where `generateServerUid` places addresses (Kolab.php:141-144) | not executed | KolabStructure.ExternalSubstringMisreadsUser | KolabStructure.ExactUserRoundTrip |
| lib/Horde/Kolab/Server/Ldap.php:479 | A test inside a list of tests reads its `begin` flag from the enclosing list (`$vals['begin']`), which never carries one | `OR => [AND => [[field => cn, op => =, test => a, begin => 1]]]`: the prefix flag is dropped and a plain clause is built | Each test's own flag (`$test['begin']`), as line 466 does for a test met directly | not executed | LegacyQuery.NestedBeginIgnoredAsWritten | LegacyQuery.SearchQueryDenotes |
