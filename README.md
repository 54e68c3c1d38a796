# UniFi Network Application API client, modelled in Dafny

This project models the core of `art-of-wifi/unifi-network-application-api-client`, a PHP client for the
UniFi Network Application's integration API. It covers the parts of the library that compute something
of their own, not the parts that only forward to HTTP.

- **The filter builder** (`Filters/Filter.php`). `where('p')` starts a builder on a property. Each
  operator method (`equals`/`eq`, `like`, `in`, `isNull`, `containsAny`, …) appends a comparison on the
  current property, and throws a `LogicException` when there is none. `and(...)` and `or(...)` combine
  builders and leave no current property. `andWhere` switches the property. `toString` serialises the
  builder into the controller's filter text, for example `and(type.eq('WIRELESS'), access.type.eq('GUEST'))`.
  - `FilterSyntax` holds the condition tree and its serialisation: `buildFilterString`,
    `buildComparisonString` and `formatValue`, with string escaping and enum unwrapping.
  - `FilterBuilder` gives every builder method as a function from one builder state to the next.
  - `Filters` has the class `Filter`. Its fields are the builder's `$conditions` and
    `$currentProperty`, and its methods change them in place and return the object itself. Each method is
    proved to leave the object in the state the function of the same name computes.
- **The per-resource filters** (`Filters/**/…Filter.php`, one module each). These are the property
  accessors, the ready-made presets and the examples of each class's documentation. Each preset and
  example is proved to serialise to its exact filter text.
- **The enums** `ClientType` and `ClientAccessType`, with `tryFrom` and their backing strings.
- **The list requests**: WiFi broadcasts, firewall zones, countries, sites and WAN interfaces. For
  each, the model gives the endpoint and `defaultQuery`: the optional `offset`, `limit` and `filter`
  parameters, built key by key into a PHP array. The query is proved to hold exactly the parameters
  given, in order. It is the only array that does so.
- **The delete requests**: traffic matching lists, WiFi broadcasts, firewall zones, networks and ACL
  rules. Each has its item endpoint and the optional `force=true` parameter.
- **The connector** (`UnifiConnector.php`): the base URL with trailing slashes trimmed, then the
  integration path; the default headers; and the HTTP client options.
- **`BaseResource`** and its `requireSiteId` guard.
- **`UnifiClient`**, a class whose `setSiteId` changes the site id in place. Every resource factory
  except `applicationInfo()` copies the site id the client holds at that moment; the application
  info resource is built without one.

The modules `Text` and `PhpArrays` model the PHP built-ins the core relies on: `implode`, `rtrim`,
integer-to-string conversion, and ordered PHP arrays with `$a[$k] = $v` assignment.

## Model

| member | source | states |
|---|---|---|
| `Enums.ClientTypeTryFrom` | vendor/art-of-wifi/unifi-network-application-api-client/src/Enums/ClientType.php:12-33 | `ClientType::tryFrom`: a case it finds has exactly the given backing string |
| `Enums.ClientTypeValue` | vendor/art-of-wifi/unifi-network-application-api-client/src/Enums/ClientType.php:17-32 | each case's backing string is a non-empty word of capital letters, so it never needs escaping |
| `Enums.ClientTypeCasesComplete` | vendor/art-of-wifi/unifi-network-application-api-client/src/Enums/ClientType.php:17-32 | the enum has exactly the four cases `WIRED`, `WIRELESS`, `VPN` and `TELEPORT`, pairwise distinct |
| `Enums.ClientTypeRoundTrip` | vendor/art-of-wifi/unifi-network-application-api-client/src/Enums/ClientType.php:17-32 | `tryFrom` of a case's backing string finds that case |
| `Enums.ClientTypeValueInjective` | vendor/art-of-wifi/unifi-network-application-api-client/src/Enums/ClientType.php:17-32 | two cases with the same backing string are the same case |
| `Enums.ClientAccessTypeTryFrom` | vendor/art-of-wifi/unifi-network-application-api-client/src/Enums/ClientAccessType.php:12-23 | `ClientAccessType::tryFrom`: a case it finds has exactly the given backing string |
| `Enums.ClientAccessTypeValue` | vendor/art-of-wifi/unifi-network-application-api-client/src/Enums/ClientAccessType.php:17-22 | each case's backing string is a non-empty word of capital letters |
| `Enums.ClientAccessTypeCasesComplete` | vendor/art-of-wifi/unifi-network-application-api-client/src/Enums/ClientAccessType.php:17-22 | the enum has exactly the two distinct cases `DEFAULT` and `GUEST` |
| `Enums.ClientAccessTypeRoundTrip` | vendor/art-of-wifi/unifi-network-application-api-client/src/Enums/ClientAccessType.php:17-22 | `tryFrom` of a case's backing string finds that case |
| `Enums.BackingValue` | vendor/art-of-wifi/unifi-network-application-api-client/src/Filters/Filter.php:436-438 | the `->value` an enum argument is sent as leads back to the same case |
| `FilterSyntax.TokenOperator` | vendor/art-of-wifi/unifi-network-application-api-client/src/Filters/Filter.php:91-303 | reading an operator token back: whatever it finds is written with that token |
| `FilterSyntax.TokenRoundTrip` | vendor/art-of-wifi/unifi-network-application-api-client/src/Filters/Filter.php:91-303 | each of the 16 operators is found again from its token |
| `FilterSyntax.TokenInjective` | vendor/art-of-wifi/unifi-network-application-api-client/src/Filters/Filter.php:91-303 | no two operators share a token |
| `FilterSyntax.EscapeLength` | vendor/art-of-wifi/unifi-network-application-api-client/src/Filters/Filter.php:453-455 | escaping adds exactly one character per single quote in the text |
| `FilterSyntax.EscapeRoundTrip` | vendor/art-of-wifi/unifi-network-application-api-client/src/Filters/Filter.php:453-455 | removing the added backslashes gives back the original string, so escaping loses nothing |
| `FilterSyntax.EscapedQuotesArePrefixed` | vendor/art-of-wifi/unifi-network-application-api-client/src/Filters/Filter.php:453-455 | every quote in an escaped string is preceded by a backslash |
| `FilterSyntax.EscapeWithoutQuotes` | vendor/art-of-wifi/unifi-network-application-api-client/src/Filters/Filter.php:453-455 | a string with no single quote is sent unchanged |
| `FilterSyntax.Unwrap` | vendor/art-of-wifi/unifi-network-application-api-client/src/Filters/Filter.php:436-438 | the value an enum stands for is never itself an enum |
| `FilterSyntax.FormatValueRoundTrip` | vendor/art-of-wifi/unifi-network-application-api-client/src/Filters/Filter.php:433-456 | reading a formatted value back gives the value itself, with an enum read as its backing string: booleans, integers and quoted strings cannot be confused |
| `FilterSyntax.FormatValueInjective` | vendor/art-of-wifi/unifi-network-application-api-client/src/Filters/Filter.php:433-456 | two values format to the same text if and only if they are equal once enums are replaced by their backing strings |
| `FilterSyntax.FormatValues` | vendor/art-of-wifi/unifi-network-application-api-client/src/Filters/Filter.php:413-420 | an array is formatted element by element, same length and order |
| `FilterSyntax.ComparisonString` | vendor/art-of-wifi/unifi-network-application-api-client/src/Filters/Filter.php:400-426 | whatever the operator and its value, the text is `property.token(arguments)` |
| `FilterSyntax.FilterString` | vendor/art-of-wifi/unifi-network-application-api-client/src/Filters/Filter.php:360-393 | the filter text is empty if and only if there are no conditions |
| `FilterSyntax.ConditionString` | vendor/art-of-wifi/unifi-network-application-api-client/src/Filters/Filter.php:366-388 | no single condition, comparison or `and`/`or`, serialises to the empty string |
| `FilterSyntax.ToString` | vendor/art-of-wifi/unifi-network-application-api-client/src/Filters/Filter.php:320-323 | `toString()` is empty exactly when the builder holds no condition |
| `FilterSyntax.ImplicitAndElement` | vendor/art-of-wifi/unifi-network-application-api-client/src/Filters/Filter.php:385-392 | element `i` of the implicit `and` is what condition `i` serialises to on its own |
| `FilterSyntax.ImplicitAndIsExplicitAnd` | vendor/art-of-wifi/unifi-network-application-api-client/src/Filters/Filter.php:385-392 | several conditions on one builder serialise exactly as an explicit `and(...)` of one-condition builders |
| `FilterSyntax.ComparisonShape` | vendor/art-of-wifi/unifi-network-application-api-client/src/Filters/Filter.php:400-426 | every comparison reads `property.token(` followed by its arguments |
| `FilterSyntax.ComparisonDeterminesOperator` | vendor/art-of-wifi/unifi-network-application-api-client/src/Filters/Filter.php:400-426 | one property with two different operators never gives the same text |
| `FilterSyntax.ComparisonDeterminesValue` | vendor/art-of-wifi/unifi-network-application-api-client/src/Filters/Filter.php:423-425 | one property and operator give the same text for two values only when the values agree (enums by backing string) |
| `FilterSyntax.QuotedPlain` | vendor/art-of-wifi/unifi-network-application-api-client/src/Filters/Filter.php:453-455 | a string with no quote is sent between single quotes, untouched |
| `FilterSyntax.QuotedEnum` | vendor/art-of-wifi/unifi-network-application-api-client/src/Filters/Filter.php:436-438 | an enum is sent as its quoted backing string |
| `FilterBuilder.Where` | vendor/art-of-wifi/unifi-network-application-api-client/src/Filters/Filter.php:44-50 | a fresh builder: no conditions, the property current, and the empty filter string |
| `FilterBuilder.And` | vendor/art-of-wifi/unifi-network-application-api-client/src/Filters/Filter.php:57-67 | no current property, and the text `and(` + the children's texts joined by `, ` + `)` |
| `FilterBuilder.Or` | vendor/art-of-wifi/unifi-network-application-api-client/src/Filters/Filter.php:74-84 | no current property, and the text `or(` + the children's texts joined by `, ` + `)` |
| `FilterBuilder.AddCondition` | vendor/art-of-wifi/unifi-network-application-api-client/src/Filters/Filter.php:339-353 | throws a `LogicException` with the source's message exactly when no property is current; otherwise appends one comparison on the current property after the earlier conditions and keeps the property |
| `FilterBuilder.Equals` | vendor/art-of-wifi/unifi-network-application-api-client/src/Filters/Filter.php:91-94 | appends `eq` with the value on the current property, or throws the `LogicException` when there is none |
| `FilterBuilder.Eq` | vendor/art-of-wifi/unifi-network-application-api-client/src/Filters/Filter.php:101-104 | appends `eq` with the value on the current property, or throws the `LogicException` when there is none |
| `FilterBuilder.NotEquals` | vendor/art-of-wifi/unifi-network-application-api-client/src/Filters/Filter.php:111-114 | appends `ne` with the value on the current property, or throws the `LogicException` when there is none |
| `FilterBuilder.Ne` | vendor/art-of-wifi/unifi-network-application-api-client/src/Filters/Filter.php:121-124 | appends `ne` with the value on the current property, or throws the `LogicException` when there is none |
| `FilterBuilder.GreaterThan` | vendor/art-of-wifi/unifi-network-application-api-client/src/Filters/Filter.php:131-134 | appends `gt` with the value on the current property, or throws the `LogicException` when there is none |
| `FilterBuilder.Gt` | vendor/art-of-wifi/unifi-network-application-api-client/src/Filters/Filter.php:141-144 | appends `gt` with the value on the current property, or throws the `LogicException` when there is none |
| `FilterBuilder.GreaterThanOrEqual` | vendor/art-of-wifi/unifi-network-application-api-client/src/Filters/Filter.php:151-154 | appends `ge` with the value on the current property, or throws the `LogicException` when there is none |
| `FilterBuilder.Gte` | vendor/art-of-wifi/unifi-network-application-api-client/src/Filters/Filter.php:161-164 | appends `ge` with the value on the current property, or throws the `LogicException` when there is none |
| `FilterBuilder.LessThan` | vendor/art-of-wifi/unifi-network-application-api-client/src/Filters/Filter.php:171-174 | appends `lt` with the value on the current property, or throws the `LogicException` when there is none |
| `FilterBuilder.Lt` | vendor/art-of-wifi/unifi-network-application-api-client/src/Filters/Filter.php:181-184 | appends `lt` with the value on the current property, or throws the `LogicException` when there is none |
| `FilterBuilder.LessThanOrEqual` | vendor/art-of-wifi/unifi-network-application-api-client/src/Filters/Filter.php:191-194 | appends `le` with the value on the current property, or throws the `LogicException` when there is none |
| `FilterBuilder.Lte` | vendor/art-of-wifi/unifi-network-application-api-client/src/Filters/Filter.php:201-204 | appends `le` with the value on the current property, or throws the `LogicException` when there is none |
| `FilterBuilder.Like` | vendor/art-of-wifi/unifi-network-application-api-client/src/Filters/Filter.php:211-214 | appends `like` with the value on the current property, or throws the `LogicException` when there is none |
| `FilterBuilder.In` | vendor/art-of-wifi/unifi-network-application-api-client/src/Filters/Filter.php:221-224 | appends `in` with the array on the current property, or throws the `LogicException` when there is none |
| `FilterBuilder.NotIn` | vendor/art-of-wifi/unifi-network-application-api-client/src/Filters/Filter.php:231-234 | appends `notIn` with the array on the current property, or throws the `LogicException` when there is none |
| `FilterBuilder.IsNull` | vendor/art-of-wifi/unifi-network-application-api-client/src/Filters/Filter.php:239-242 | appends `isNull` with no value on the current property, or throws the `LogicException` when there is none |
| `FilterBuilder.IsNotNull` | vendor/art-of-wifi/unifi-network-application-api-client/src/Filters/Filter.php:247-250 | appends `isNotNull` with no value on the current property, or throws the `LogicException` when there is none |
| `FilterBuilder.Contains` | vendor/art-of-wifi/unifi-network-application-api-client/src/Filters/Filter.php:258-261 | appends `contains` with the value on the current property, or throws the `LogicException` when there is none |
| `FilterBuilder.ContainsAny` | vendor/art-of-wifi/unifi-network-application-api-client/src/Filters/Filter.php:269-272 | appends `containsAny` with the array on the current property, or throws the `LogicException` when there is none |
| `FilterBuilder.ContainsAll` | vendor/art-of-wifi/unifi-network-application-api-client/src/Filters/Filter.php:280-283 | appends `containsAll` with the array on the current property, or throws the `LogicException` when there is none |
| `FilterBuilder.ContainsExactly` | vendor/art-of-wifi/unifi-network-application-api-client/src/Filters/Filter.php:291-294 | appends `containsExactly` with the array on the current property, or throws the `LogicException` when there is none |
| `FilterBuilder.IsEmpty` | vendor/art-of-wifi/unifi-network-application-api-client/src/Filters/Filter.php:300-303 | appends `isEmpty` with no value on the current property, or throws the `LogicException` when there is none |
| `FilterBuilder.AndWhere` | vendor/art-of-wifi/unifi-network-application-api-client/src/Filters/Filter.php:310-315 | makes the new property current without touching the conditions or the filter string |
| `FilterBuilder.WhereAcceptsEveryOperator` | vendor/art-of-wifi/unifi-network-application-api-client/src/Filters/Filter.php:339-353 | right after `where($p)` every operator succeeds and its comparison is the only condition |
| `FilterBuilder.AliasesAgree` | vendor/art-of-wifi/unifi-network-application-api-client/src/Filters/Filter.php:101-204 | `eq`, `ne`, `gt`, `gte`, `lt`, `lte` do exactly what their long forms do |
| `FilterBuilder.LogicalRejectsEveryOperator` | vendor/art-of-wifi/unifi-network-application-api-client/src/Filters/Filter.php:341-343 | after `and()` or `or()` every operator throws, with the source's message |
| `FilterBuilder.AndWhereReenables` | vendor/art-of-wifi/unifi-network-application-api-client/src/Filters/Filter.php:310-315 | `andWhere` on a combined builder makes operators work again; the new comparison follows the logical condition |
| `FilterBuilder.ChainAppendsInOrder` | vendor/art-of-wifi/unifi-network-application-api-client/src/Filters/Filter.php:339-353 | a chain of any number of operators on a builder with a property never throws and appends one comparison per call, on that property, in call order |
| `FilterBuilder.ChainWithoutPropertyThrows` | vendor/art-of-wifi/unifi-network-application-api-client/src/Filters/Filter.php:341-343 | a chain on a builder without a property ends with the exception of its first call |
| `Filters.Filter.Where` | vendor/art-of-wifi/unifi-network-application-api-client/src/Filters/Filter.php:44-50 | a new object whose fields hold the state `FilterBuilder.Where` describes |
| `Filters.Filter.And` | vendor/art-of-wifi/unifi-network-application-api-client/src/Filters/Filter.php:57-67 | a new object holding one `and` condition over the children's states, no current property |
| `Filters.Filter.Or` | vendor/art-of-wifi/unifi-network-application-api-client/src/Filters/Filter.php:74-84 | a new object holding one `or` condition over the children's states, no current property |
| `Filters.Filter.AddCondition` | vendor/art-of-wifi/unifi-network-application-api-client/src/Filters/Filter.php:339-353 | on success changes the object in place to the state `FilterBuilder.AddCondition` computes and returns the same object; on the exception leaves it unchanged |
| `Filters.Filter.Equals` | vendor/art-of-wifi/unifi-network-application-api-client/src/Filters/Filter.php:91-94 | in place: the object becomes what `FilterBuilder.Equals` gives and is returned itself, or is left unchanged when it throws |
| `Filters.Filter.Eq` | vendor/art-of-wifi/unifi-network-application-api-client/src/Filters/Filter.php:101-104 | in place: the object becomes what `FilterBuilder.Eq` gives and is returned itself, or is left unchanged when it throws |
| `Filters.Filter.NotEquals` | vendor/art-of-wifi/unifi-network-application-api-client/src/Filters/Filter.php:111-114 | in place: the object becomes what `FilterBuilder.NotEquals` gives and is returned itself, or is left unchanged when it throws |
| `Filters.Filter.Ne` | vendor/art-of-wifi/unifi-network-application-api-client/src/Filters/Filter.php:121-124 | in place: the object becomes what `FilterBuilder.Ne` gives and is returned itself, or is left unchanged when it throws |
| `Filters.Filter.GreaterThan` | vendor/art-of-wifi/unifi-network-application-api-client/src/Filters/Filter.php:131-134 | in place: the object becomes what `FilterBuilder.GreaterThan` gives and is returned itself, or is left unchanged when it throws |
| `Filters.Filter.Gt` | vendor/art-of-wifi/unifi-network-application-api-client/src/Filters/Filter.php:141-144 | in place: the object becomes what `FilterBuilder.Gt` gives and is returned itself, or is left unchanged when it throws |
| `Filters.Filter.GreaterThanOrEqual` | vendor/art-of-wifi/unifi-network-application-api-client/src/Filters/Filter.php:151-154 | in place: the object becomes what `FilterBuilder.GreaterThanOrEqual` gives and is returned itself, or is left unchanged when it throws |
| `Filters.Filter.Gte` | vendor/art-of-wifi/unifi-network-application-api-client/src/Filters/Filter.php:161-164 | in place: the object becomes what `FilterBuilder.Gte` gives and is returned itself, or is left unchanged when it throws |
| `Filters.Filter.LessThan` | vendor/art-of-wifi/unifi-network-application-api-client/src/Filters/Filter.php:171-174 | in place: the object becomes what `FilterBuilder.LessThan` gives and is returned itself, or is left unchanged when it throws |
| `Filters.Filter.Lt` | vendor/art-of-wifi/unifi-network-application-api-client/src/Filters/Filter.php:181-184 | in place: the object becomes what `FilterBuilder.Lt` gives and is returned itself, or is left unchanged when it throws |
| `Filters.Filter.LessThanOrEqual` | vendor/art-of-wifi/unifi-network-application-api-client/src/Filters/Filter.php:191-194 | in place: the object becomes what `FilterBuilder.LessThanOrEqual` gives and is returned itself, or is left unchanged when it throws |
| `Filters.Filter.Lte` | vendor/art-of-wifi/unifi-network-application-api-client/src/Filters/Filter.php:201-204 | in place: the object becomes what `FilterBuilder.Lte` gives and is returned itself, or is left unchanged when it throws |
| `Filters.Filter.Like` | vendor/art-of-wifi/unifi-network-application-api-client/src/Filters/Filter.php:211-214 | in place: the object becomes what `FilterBuilder.Like` gives and is returned itself, or is left unchanged when it throws |
| `Filters.Filter.In` | vendor/art-of-wifi/unifi-network-application-api-client/src/Filters/Filter.php:221-224 | in place: the object becomes what `FilterBuilder.In` gives and is returned itself, or is left unchanged when it throws |
| `Filters.Filter.NotIn` | vendor/art-of-wifi/unifi-network-application-api-client/src/Filters/Filter.php:231-234 | in place: the object becomes what `FilterBuilder.NotIn` gives and is returned itself, or is left unchanged when it throws |
| `Filters.Filter.IsNull` | vendor/art-of-wifi/unifi-network-application-api-client/src/Filters/Filter.php:239-242 | in place: the object becomes what `FilterBuilder.IsNull` gives and is returned itself, or is left unchanged when it throws |
| `Filters.Filter.IsNotNull` | vendor/art-of-wifi/unifi-network-application-api-client/src/Filters/Filter.php:247-250 | in place: the object becomes what `FilterBuilder.IsNotNull` gives and is returned itself, or is left unchanged when it throws |
| `Filters.Filter.Contains` | vendor/art-of-wifi/unifi-network-application-api-client/src/Filters/Filter.php:258-261 | in place: the object becomes what `FilterBuilder.Contains` gives and is returned itself, or is left unchanged when it throws |
| `Filters.Filter.ContainsAny` | vendor/art-of-wifi/unifi-network-application-api-client/src/Filters/Filter.php:269-272 | in place: the object becomes what `FilterBuilder.ContainsAny` gives and is returned itself, or is left unchanged when it throws |
| `Filters.Filter.ContainsAll` | vendor/art-of-wifi/unifi-network-application-api-client/src/Filters/Filter.php:280-283 | in place: the object becomes what `FilterBuilder.ContainsAll` gives and is returned itself, or is left unchanged when it throws |
| `Filters.Filter.ContainsExactly` | vendor/art-of-wifi/unifi-network-application-api-client/src/Filters/Filter.php:291-294 | in place: the object becomes what `FilterBuilder.ContainsExactly` gives and is returned itself, or is left unchanged when it throws |
| `Filters.Filter.IsEmpty` | vendor/art-of-wifi/unifi-network-application-api-client/src/Filters/Filter.php:300-303 | in place: the object becomes what `FilterBuilder.IsEmpty` gives and is returned itself, or is left unchanged when it throws |
| `Filters.Filter.AndWhere` | vendor/art-of-wifi/unifi-network-application-api-client/src/Filters/Filter.php:310-315 | sets the current property in place, keeps the conditions, returns the same object |
| `Filters.Filter.ToString` | vendor/art-of-wifi/unifi-network-application-api-client/src/Filters/Filter.php:320-323 | the object's `toString()` is empty exactly when it holds no condition |
| `Filters.ChainOnOneObject` | vendor/art-of-wifi/unifi-network-application-api-client/src/Filters/Filter.php:339-353 | `where('a')->eq(1)->ne(2)` returns one object each time and ends with both comparisons on `a`, in order |
| `Filters.CombineThenChange` | vendor/art-of-wifi/unifi-network-application-api-client/src/Filters/Filter.php:57-67 | exhibits the model's admitted difference from PHP (see `Filters.Filter.And` under Left out): a child changed after `Filter::and()` leaves the combined builder as it was when combined, where PHP's `toString()` would show the child's later conditions |
| `ClientFilter.Id` | vendor/art-of-wifi/unifi-network-application-api-client/src/Filters/Clients/ClientFilter.php:50-53 | a builder started on `id`: no conditions yet and `id` current, so every operator applies to it |
| `ClientFilter.Type` | vendor/art-of-wifi/unifi-network-application-api-client/src/Filters/Clients/ClientFilter.php:61-64 | a builder started on `type`: no conditions yet and `type` current, so every operator applies to it |
| `ClientFilter.MacAddress` | vendor/art-of-wifi/unifi-network-application-api-client/src/Filters/Clients/ClientFilter.php:71-74 | a builder started on `macAddress`: no conditions yet and `macAddress` current, so every operator applies to it |
| `ClientFilter.IpAddress` | vendor/art-of-wifi/unifi-network-application-api-client/src/Filters/Clients/ClientFilter.php:81-84 | a builder started on `ipAddress`: no conditions yet and `ipAddress` current, so every operator applies to it |
| `ClientFilter.ConnectedAt` | vendor/art-of-wifi/unifi-network-application-api-client/src/Filters/Clients/ClientFilter.php:91-94 | a builder started on `connectedAt`: no conditions yet and `connectedAt` current, so every operator applies to it |
| `ClientFilter.AccessType` | vendor/art-of-wifi/unifi-network-application-api-client/src/Filters/Clients/ClientFilter.php:102-105 | a builder started on `access.type`: no conditions yet and `access.type` current, so every operator applies to it |
| `ClientFilter.AccessAuthorized` | vendor/art-of-wifi/unifi-network-application-api-client/src/Filters/Clients/ClientFilter.php:112-115 | a builder started on `access.authorized`: no conditions yet and `access.authorized` current, so every operator applies to it |
| `ClientFilter.Wireless` | vendor/art-of-wifi/unifi-network-application-api-client/src/Filters/Clients/ClientFilter.php:122-125 | the preset serialises to `type.eq('WIRELESS')` (the enum sent by its backing string), with `type` still current |
| `ClientFilter.Wired` | vendor/art-of-wifi/unifi-network-application-api-client/src/Filters/Clients/ClientFilter.php:130-133 | the preset serialises to `type.eq('WIRED')` (the enum sent by its backing string), with `type` still current |
| `ClientFilter.Vpn` | vendor/art-of-wifi/unifi-network-application-api-client/src/Filters/Clients/ClientFilter.php:138-141 | the preset serialises to `type.eq('VPN')` (the enum sent by its backing string), with `type` still current |
| `ClientFilter.Teleport` | vendor/art-of-wifi/unifi-network-application-api-client/src/Filters/Clients/ClientFilter.php:146-149 | the preset serialises to `type.eq('TELEPORT')` (the enum sent by its backing string), with `type` still current |
| `ClientFilter.Guests` | vendor/art-of-wifi/unifi-network-application-api-client/src/Filters/Clients/ClientFilter.php:154-157 | the preset serialises to `access.type.eq('GUEST')` (the enum sent by its backing string), with `access.type` still current |
| `ClientFilter.DefaultAccess` | vendor/art-of-wifi/unifi-network-application-api-client/src/Filters/Clients/ClientFilter.php:162-165 | the preset serialises to `access.type.eq('DEFAULT')` (the enum sent by its backing string), with `access.type` still current |
| `ClientFilter.Authorized` | vendor/art-of-wifi/unifi-network-application-api-client/src/Filters/Clients/ClientFilter.php:192-210 | `access.authorized.eq(true)` or `access.authorized.eq(false)`, the building block of the two authorisation presets |
| `ClientFilter.WirelessGuests` | vendor/art-of-wifi/unifi-network-application-api-client/src/Filters/Clients/ClientFilter.php:170-177 | the preset serialises to `and(type.eq('WIRELESS'), access.type.eq('GUEST'))`, with no current property |
| `ClientFilter.WiredGuests` | vendor/art-of-wifi/unifi-network-application-api-client/src/Filters/Clients/ClientFilter.php:181-188 | the preset serialises to `and(type.eq('WIRED'), access.type.eq('GUEST'))`, with no current property |
| `ClientFilter.AuthorizedGuests` | vendor/art-of-wifi/unifi-network-application-api-client/src/Filters/Clients/ClientFilter.php:192-199 | the preset serialises to `and(access.type.eq('GUEST'), access.authorized.eq(true))`, with no current property |
| `ClientFilter.UnauthorizedGuests` | vendor/art-of-wifi/unifi-network-application-api-client/src/Filters/Clients/ClientFilter.php:203-210 | the preset serialises to `and(access.type.eq('GUEST'), access.authorized.eq(false))`, with no current property |
| `ClientFilter.WithIpAddress` | vendor/art-of-wifi/unifi-network-application-api-client/src/Filters/Clients/ClientFilter.php:214-217 | the preset serialises to `ipAddress.isNotNull()`, with `ipAddress` still current |
| `ClientFilter.WithoutIpAddress` | vendor/art-of-wifi/unifi-network-application-api-client/src/Filters/Clients/ClientFilter.php:222-225 | the preset serialises to `ipAddress.isNull()`, with `ipAddress` still current |
| `ClientFilter.CombinedPresetsRejectOperators` | vendor/art-of-wifi/unifi-network-application-api-client/src/Filters/Clients/ClientFilter.php:170-210 | any operator chained on one of the four combined presets throws |
| `DeviceFilter.Id` | vendor/art-of-wifi/unifi-network-application-api-client/src/Filters/Devices/DeviceFilter.php:52-55 | a builder started on `id`: no conditions yet and `id` current, so every operator applies to it |
| `DeviceFilter.MacAddress` | vendor/art-of-wifi/unifi-network-application-api-client/src/Filters/Devices/DeviceFilter.php:62-65 | a builder started on `macAddress`: no conditions yet and `macAddress` current, so every operator applies to it |
| `DeviceFilter.IpAddress` | vendor/art-of-wifi/unifi-network-application-api-client/src/Filters/Devices/DeviceFilter.php:72-75 | a builder started on `ipAddress`: no conditions yet and `ipAddress` current, so every operator applies to it |
| `DeviceFilter.Name` | vendor/art-of-wifi/unifi-network-application-api-client/src/Filters/Devices/DeviceFilter.php:82-85 | a builder started on `name`: no conditions yet and `name` current, so every operator applies to it |
| `DeviceFilter.Model` | vendor/art-of-wifi/unifi-network-application-api-client/src/Filters/Devices/DeviceFilter.php:92-95 | a builder started on `model`: no conditions yet and `model` current, so every operator applies to it |
| `DeviceFilter.State` | vendor/art-of-wifi/unifi-network-application-api-client/src/Filters/Devices/DeviceFilter.php:102-105 | a builder started on `state`: no conditions yet and `state` current, so every operator applies to it |
| `DeviceFilter.Supported` | vendor/art-of-wifi/unifi-network-application-api-client/src/Filters/Devices/DeviceFilter.php:112-115 | a builder started on `supported`: no conditions yet and `supported` current, so every operator applies to it |
| `DeviceFilter.FirmwareVersion` | vendor/art-of-wifi/unifi-network-application-api-client/src/Filters/Devices/DeviceFilter.php:122-125 | a builder started on `firmwareVersion`: no conditions yet and `firmwareVersion` current, so every operator applies to it |
| `DeviceFilter.FirmwareUpdatable` | vendor/art-of-wifi/unifi-network-application-api-client/src/Filters/Devices/DeviceFilter.php:132-135 | a builder started on `firmwareUpdatable`: no conditions yet and `firmwareUpdatable` current, so every operator applies to it |
| `DeviceFilter.Features` | vendor/art-of-wifi/unifi-network-application-api-client/src/Filters/Devices/DeviceFilter.php:142-145 | a builder started on `features`: no conditions yet and `features` current, so every operator applies to it |
| `DeviceFilter.Interfaces` | vendor/art-of-wifi/unifi-network-application-api-client/src/Filters/Devices/DeviceFilter.php:152-155 | a builder started on `interfaces`: no conditions yet and `interfaces` current, so every operator applies to it |
| `DeviceFilter.NeedsFirmwareUpdate` | vendor/art-of-wifi/unifi-network-application-api-client/src/Filters/Devices/DeviceFilter.php:162-165 | the preset serialises to `firmwareUpdatable.eq(true)`, with `firmwareUpdatable` still current |
| `DeviceFilter.SupportedOnly` | vendor/art-of-wifi/unifi-network-application-api-client/src/Filters/Devices/DeviceFilter.php:170-173 | the preset serialises to `supported.eq(true)`, with `supported` still current |
| `DeviceFilter.Wifi6Capable` | vendor/art-of-wifi/unifi-network-application-api-client/src/Filters/Devices/DeviceFilter.php:178-181 | the preset serialises to `features.contains('wifi6')`, with `features` still current |
| `DeviceFilter.PoeCapable` | vendor/art-of-wifi/unifi-network-application-api-client/src/Filters/Devices/DeviceFilter.php:186-189 | the preset serialises to `features.contains('poe')`, with `features` still current |
| `DeviceFilter.AccessPointsExample` | vendor/art-of-wifi/unifi-network-application-api-client/src/Filters/Devices/DeviceFilter.php:30 | the documented example serialises to `name.like('AP-*')`, with `name` still current |
| `DeviceFilter.ModelsExample` | vendor/art-of-wifi/unifi-network-application-api-client/src/Filters/Devices/DeviceFilter.php:33 | the documented example serialises to `model.in('U6-LR', 'U6-PRO')`, with `model` still current |
| `DeviceFilter.UpdatableSupportedExample` | vendor/art-of-wifi/unifi-network-application-api-client/src/Filters/Devices/DeviceFilter.php:36-39 | the documented example serialises to `and(firmwareUpdatable.eq(true), supported.eq(true))`, with no current property, so a further operator throws |
| `DeviceFilter.ModelU6LrExample` | vendor/art-of-wifi/unifi-network-application-api-client/src/Filters/Filter.php:22 | the documented example serialises to `model.eq('U6-LR')`, with `model` still current |
| `DeviceFilter.FirmwareAbove6Example` | vendor/art-of-wifi/unifi-network-application-api-client/src/Filters/Filter.php:23 | the documented example serialises to `firmwareVersion.gt('6.0.0')`, with `firmwareVersion` still current |
| `DeviceFilter.ModelAndFirmwareExample` | vendor/art-of-wifi/unifi-network-application-api-client/src/Filters/Filter.php:21-24 | the documented example serialises to `and(model.eq('U6-LR'), firmwareVersion.gt('6.0.0'))`, with no current property, so a further operator throws |
| `DeviceFilter.SwitchesExample` | vendor/art-of-wifi/unifi-network-application-api-client/src/Filters/Filter.php:29 | the documented example serialises to `name.like('USW-*')`, with `name` still current |
| `DeviceFilter.AccessPointsOrSwitchesExample` | vendor/art-of-wifi/unifi-network-application-api-client/src/Filters/Filter.php:27-30 | the documented example serialises to `or(name.like('AP-*'), name.like('USW-*'))`, with no current property, so a further operator throws |
| `NetworkFilter.Management` | vendor/art-of-wifi/unifi-network-application-api-client/src/Filters/Networks/NetworkFilter.php:48-51 | a builder started on `management`: no conditions yet and `management` current, so every operator applies to it |
| `NetworkFilter.Id` | vendor/art-of-wifi/unifi-network-application-api-client/src/Filters/Networks/NetworkFilter.php:58-61 | a builder started on `id`: no conditions yet and `id` current, so every operator applies to it |
| `NetworkFilter.Name` | vendor/art-of-wifi/unifi-network-application-api-client/src/Filters/Networks/NetworkFilter.php:68-71 | a builder started on `name`: no conditions yet and `name` current, so every operator applies to it |
| `NetworkFilter.Enabled` | vendor/art-of-wifi/unifi-network-application-api-client/src/Filters/Networks/NetworkFilter.php:78-81 | a builder started on `enabled`: no conditions yet and `enabled` current, so every operator applies to it |
| `NetworkFilter.VlanId` | vendor/art-of-wifi/unifi-network-application-api-client/src/Filters/Networks/NetworkFilter.php:88-91 | a builder started on `vlanId`: no conditions yet and `vlanId` current, so every operator applies to it |
| `NetworkFilter.DeviceId` | vendor/art-of-wifi/unifi-network-application-api-client/src/Filters/Networks/NetworkFilter.php:98-101 | a builder started on `deviceId`: no conditions yet and `deviceId` current, so every operator applies to it |
| `NetworkFilter.MetadataOrigin` | vendor/art-of-wifi/unifi-network-application-api-client/src/Filters/Networks/NetworkFilter.php:108-111 | a builder started on `metadata.origin`: no conditions yet and `metadata.origin` current, so every operator applies to it |
| `NetworkFilter.EnabledOnly` | vendor/art-of-wifi/unifi-network-application-api-client/src/Filters/Networks/NetworkFilter.php:118-121 | the preset serialises to `enabled.eq(true)`, with `enabled` still current |
| `NetworkFilter.DisabledOnly` | vendor/art-of-wifi/unifi-network-application-api-client/src/Filters/Networks/NetworkFilter.php:126-129 | the preset serialises to `enabled.eq(false)`, with `enabled` still current |
| `NetworkFilter.GuestNetworks` | vendor/art-of-wifi/unifi-network-application-api-client/src/Filters/Networks/NetworkFilter.php:134-137 | the preset serialises to `name.like('*Guest*')`, with `name` still current |
| `NetworkFilter.IotNetworks` | vendor/art-of-wifi/unifi-network-application-api-client/src/Filters/Networks/NetworkFilter.php:142-145 | the preset serialises to `name.like('*IoT*')`, with `name` still current |
| `NetworkFilter.UnassignedNetworks` | vendor/art-of-wifi/unifi-network-application-api-client/src/Filters/Networks/NetworkFilter.php:150-153 | the preset serialises to `deviceId.isNull()`, with `deviceId` still current |
| `NetworkFilter.LanExample` | vendor/art-of-wifi/unifi-network-application-api-client/src/Filters/Networks/NetworkFilter.php:26 | the documented example serialises to `name.eq('LAN')`, with `name` still current |
| `NetworkFilter.VlanAbove10` | vendor/art-of-wifi/unifi-network-application-api-client/src/Filters/Networks/NetworkFilter.php:33 | the documented example serialises to `vlanId.gt(10)`, with `vlanId` still current |
| `NetworkFilter.VlanBelow100` | vendor/art-of-wifi/unifi-network-application-api-client/src/Filters/Networks/NetworkFilter.php:34 | the documented example serialises to `vlanId.lt(100)`, with `vlanId` still current |
| `NetworkFilter.VlanRangeExample` | vendor/art-of-wifi/unifi-network-application-api-client/src/Filters/Networks/NetworkFilter.php:32-35 | the documented example serialises to `and(vlanId.gt(10), vlanId.lt(100))`, with no current property, so a further operator throws |
| `NetworkFilter.GuestPrefixExample` | vendor/art-of-wifi/unifi-network-application-api-client/src/Filters/Networks/NetworkFilter.php:38 | the documented example serialises to `name.like('Guest*')`, with `name` still current |
| `DnsPolicyFilter.Type` | vendor/art-of-wifi/unifi-network-application-api-client/src/Filters/DnsPolicies/DnsPolicyFilter.php:52-55 | a builder started on `type`: no conditions yet and `type` current, so every operator applies to it |
| `DnsPolicyFilter.Id` | vendor/art-of-wifi/unifi-network-application-api-client/src/Filters/DnsPolicies/DnsPolicyFilter.php:62-65 | a builder started on `id`: no conditions yet and `id` current, so every operator applies to it |
| `DnsPolicyFilter.Enabled` | vendor/art-of-wifi/unifi-network-application-api-client/src/Filters/DnsPolicies/DnsPolicyFilter.php:72-75 | a builder started on `enabled`: no conditions yet and `enabled` current, so every operator applies to it |
| `DnsPolicyFilter.Domain` | vendor/art-of-wifi/unifi-network-application-api-client/src/Filters/DnsPolicies/DnsPolicyFilter.php:82-85 | a builder started on `domain`: no conditions yet and `domain` current, so every operator applies to it |
| `DnsPolicyFilter.Ipv4Address` | vendor/art-of-wifi/unifi-network-application-api-client/src/Filters/DnsPolicies/DnsPolicyFilter.php:92-95 | a builder started on `ipv4Address`: no conditions yet and `ipv4Address` current, so every operator applies to it |
| `DnsPolicyFilter.Ipv6Address` | vendor/art-of-wifi/unifi-network-application-api-client/src/Filters/DnsPolicies/DnsPolicyFilter.php:102-105 | a builder started on `ipv6Address`: no conditions yet and `ipv6Address` current, so every operator applies to it |
| `DnsPolicyFilter.TargetDomain` | vendor/art-of-wifi/unifi-network-application-api-client/src/Filters/DnsPolicies/DnsPolicyFilter.php:112-115 | a builder started on `targetDomain`: no conditions yet and `targetDomain` current, so every operator applies to it |
| `DnsPolicyFilter.MailServerDomain` | vendor/art-of-wifi/unifi-network-application-api-client/src/Filters/DnsPolicies/DnsPolicyFilter.php:122-125 | a builder started on `mailServerDomain`: no conditions yet and `mailServerDomain` current, so every operator applies to it |
| `DnsPolicyFilter.Text` | vendor/art-of-wifi/unifi-network-application-api-client/src/Filters/DnsPolicies/DnsPolicyFilter.php:132-135 | a builder started on `text`: no conditions yet and `text` current, so every operator applies to it |
| `DnsPolicyFilter.ServerDomain` | vendor/art-of-wifi/unifi-network-application-api-client/src/Filters/DnsPolicies/DnsPolicyFilter.php:142-145 | a builder started on `serverDomain`: no conditions yet and `serverDomain` current, so every operator applies to it |
| `DnsPolicyFilter.IpAddress` | vendor/art-of-wifi/unifi-network-application-api-client/src/Filters/DnsPolicies/DnsPolicyFilter.php:152-155 | a builder started on `ipAddress`: no conditions yet and `ipAddress` current, so every operator applies to it |
| `DnsPolicyFilter.TtlSeconds` | vendor/art-of-wifi/unifi-network-application-api-client/src/Filters/DnsPolicies/DnsPolicyFilter.php:162-165 | a builder started on `ttlSeconds`: no conditions yet and `ttlSeconds` current, so every operator applies to it |
| `DnsPolicyFilter.Priority` | vendor/art-of-wifi/unifi-network-application-api-client/src/Filters/DnsPolicies/DnsPolicyFilter.php:172-175 | a builder started on `priority`: no conditions yet and `priority` current, so every operator applies to it |
| `DnsPolicyFilter.Service` | vendor/art-of-wifi/unifi-network-application-api-client/src/Filters/DnsPolicies/DnsPolicyFilter.php:182-185 | a builder started on `service`: no conditions yet and `service` current, so every operator applies to it |
| `DnsPolicyFilter.Protocol` | vendor/art-of-wifi/unifi-network-application-api-client/src/Filters/DnsPolicies/DnsPolicyFilter.php:192-195 | a builder started on `protocol`: no conditions yet and `protocol` current, so every operator applies to it |
| `DnsPolicyFilter.Port` | vendor/art-of-wifi/unifi-network-application-api-client/src/Filters/DnsPolicies/DnsPolicyFilter.php:202-205 | a builder started on `port`: no conditions yet and `port` current, so every operator applies to it |
| `DnsPolicyFilter.Weight` | vendor/art-of-wifi/unifi-network-application-api-client/src/Filters/DnsPolicies/DnsPolicyFilter.php:212-215 | a builder started on `weight`: no conditions yet and `weight` current, so every operator applies to it |
| `DnsPolicyFilter.ARecords` | vendor/art-of-wifi/unifi-network-application-api-client/src/Filters/DnsPolicies/DnsPolicyFilter.php:222-225 | the preset serialises to `type.eq('A')`, with `type` still current |
| `DnsPolicyFilter.AaaaRecords` | vendor/art-of-wifi/unifi-network-application-api-client/src/Filters/DnsPolicies/DnsPolicyFilter.php:230-233 | the preset serialises to `type.eq('AAAA')`, with `type` still current |
| `DnsPolicyFilter.CnameRecords` | vendor/art-of-wifi/unifi-network-application-api-client/src/Filters/DnsPolicies/DnsPolicyFilter.php:238-241 | the preset serialises to `type.eq('CNAME')`, with `type` still current |
| `DnsPolicyFilter.MxRecords` | vendor/art-of-wifi/unifi-network-application-api-client/src/Filters/DnsPolicies/DnsPolicyFilter.php:246-249 | the preset serialises to `type.eq('MX')`, with `type` still current |
| `DnsPolicyFilter.TxtRecords` | vendor/art-of-wifi/unifi-network-application-api-client/src/Filters/DnsPolicies/DnsPolicyFilter.php:254-257 | the preset serialises to `type.eq('TXT')`, with `type` still current |
| `DnsPolicyFilter.SrvRecords` | vendor/art-of-wifi/unifi-network-application-api-client/src/Filters/DnsPolicies/DnsPolicyFilter.php:262-265 | the preset serialises to `type.eq('SRV')`, with `type` still current |
| `DnsPolicyFilter.ForwardDomains` | vendor/art-of-wifi/unifi-network-application-api-client/src/Filters/DnsPolicies/DnsPolicyFilter.php:270-273 | the preset serialises to `type.eq('FORWARD_DOMAIN')`, with `type` still current |
| `DnsPolicyFilter.EnabledOnly` | vendor/art-of-wifi/unifi-network-application-api-client/src/Filters/DnsPolicies/DnsPolicyFilter.php:278-281 | the preset serialises to `enabled.eq(true)`, with `enabled` still current |
| `DnsPolicyFilter.ExampleDomainLike` | vendor/art-of-wifi/unifi-network-application-api-client/src/Filters/DnsPolicies/DnsPolicyFilter.php:41 | the documented example serialises to `domain.like('*.example.com')`, with `domain` still current |
| `DnsPolicyFilter.EnabledExampleDomainExample` | vendor/art-of-wifi/unifi-network-application-api-client/src/Filters/DnsPolicies/DnsPolicyFilter.php:39-42 | the documented example serialises to `and(enabled.eq(true), domain.like('*.example.com'))`, with no current property, so a further operator throws |
| `CountriesFilter.Code` | vendor/art-of-wifi/unifi-network-application-api-client/src/Filters/SupportingResources/CountriesFilter.php:40-43 | a builder started on `code`: no conditions yet and `code` current, so every operator applies to it |
| `CountriesFilter.Name` | vendor/art-of-wifi/unifi-network-application-api-client/src/Filters/SupportingResources/CountriesFilter.php:50-53 | a builder started on `name`: no conditions yet and `name` current, so every operator applies to it |
| `CountriesFilter.UnitedStates` | vendor/art-of-wifi/unifi-network-application-api-client/src/Filters/SupportingResources/CountriesFilter.php:60-63 | the preset serialises to `code.eq('US')`, with `code` still current |
| `CountriesFilter.UnitedKingdom` | vendor/art-of-wifi/unifi-network-application-api-client/src/Filters/SupportingResources/CountriesFilter.php:68-71 | the preset serialises to `code.eq('GB')`, with `code` still current |
| `CountriesFilter.Canada` | vendor/art-of-wifi/unifi-network-application-api-client/src/Filters/SupportingResources/CountriesFilter.php:76-79 | the preset serialises to `code.eq('CA')`, with `code` still current |
| `CountriesFilter.Australia` | vendor/art-of-wifi/unifi-network-application-api-client/src/Filters/SupportingResources/CountriesFilter.php:84-87 | the preset serialises to `code.eq('AU')`, with `code` still current |
| `CountriesFilter.NorthAmerica` | vendor/art-of-wifi/unifi-network-application-api-client/src/Filters/SupportingResources/CountriesFilter.php:104-107 | the preset serialises to `code.in('US', 'CA', 'MX')`, with `code` still current |
| `CountriesFilter.UnitedPrefixExample` | vendor/art-of-wifi/unifi-network-application-api-client/src/Filters/SupportingResources/CountriesFilter.php:24 | the documented example serialises to `name.like('United*')`, with `name` still current |
| `CountriesFilter.EnglishSpeakingExample` | vendor/art-of-wifi/unifi-network-application-api-client/src/Filters/SupportingResources/CountriesFilter.php:27 | the documented example serialises to `code.in('US', 'GB', 'CA', 'AU')`, with `code` still current |
| `CountriesFilter.KingdomExample` | vendor/art-of-wifi/unifi-network-application-api-client/src/Filters/SupportingResources/CountriesFilter.php:30 | the documented example serialises to `name.like('*Kingdom*')`, with `name` still current |
| `DpiApplicationsFilter.Id` | vendor/art-of-wifi/unifi-network-application-api-client/src/Filters/SupportingResources/DpiApplicationsFilter.php:37-40 | a builder started on `id`: no conditions yet and `id` current, so every operator applies to it |
| `DpiApplicationsFilter.Name` | vendor/art-of-wifi/unifi-network-application-api-client/src/Filters/SupportingResources/DpiApplicationsFilter.php:47-50 | a builder started on `name`: no conditions yet and `name` current, so every operator applies to it |
| `DpiApplicationsFilter.Netflix` | vendor/art-of-wifi/unifi-network-application-api-client/src/Filters/SupportingResources/DpiApplicationsFilter.php:57-60 | the preset serialises to `name.eq('Netflix')`, with `name` still current |
| `DpiApplicationsFilter.Youtube` | vendor/art-of-wifi/unifi-network-application-api-client/src/Filters/SupportingResources/DpiApplicationsFilter.php:65-68 | the preset serialises to `name.eq('YouTube')`, with `name` still current |
| `DpiApplicationsFilter.Facebook` | vendor/art-of-wifi/unifi-network-application-api-client/src/Filters/SupportingResources/DpiApplicationsFilter.php:73-76 | the preset serialises to `name.eq('Facebook')`, with `name` still current |
| `DpiApplicationsFilter.TubeExample` | vendor/art-of-wifi/unifi-network-application-api-client/src/Filters/SupportingResources/DpiApplicationsFilter.php:24 | the documented example serialises to `name.like('*Tube*')`, with `name` still current |
| `DpiApplicationsFilter.IdsExample` | vendor/art-of-wifi/unifi-network-application-api-client/src/Filters/SupportingResources/DpiApplicationsFilter.php:27 | the documented example serialises to `id.in(100, 101, 102)`, with `id` still current |
| `DpiCategoriesFilter.Id` | vendor/art-of-wifi/unifi-network-application-api-client/src/Filters/SupportingResources/DpiCategoriesFilter.php:37-40 | a builder started on `id`: no conditions yet and `id` current, so every operator applies to it |
| `DpiCategoriesFilter.Name` | vendor/art-of-wifi/unifi-network-application-api-client/src/Filters/SupportingResources/DpiCategoriesFilter.php:47-50 | a builder started on `name`: no conditions yet and `name` current, so every operator applies to it |
| `DpiCategoriesFilter.SocialMedia` | vendor/art-of-wifi/unifi-network-application-api-client/src/Filters/SupportingResources/DpiCategoriesFilter.php:57-60 | the preset serialises to `name.like('*Social*')`, with `name` still current |
| `DpiCategoriesFilter.Streaming` | vendor/art-of-wifi/unifi-network-application-api-client/src/Filters/SupportingResources/DpiCategoriesFilter.php:65-68 | the preset serialises to `name.like('*Streaming*')`, with `name` still current |
| `DpiCategoriesFilter.Gaming` | vendor/art-of-wifi/unifi-network-application-api-client/src/Filters/SupportingResources/DpiCategoriesFilter.php:73-76 | the preset serialises to `name.like('*Gam*')`, with `name` still current |
| `DpiCategoriesFilter.SocialNetworkingExample` | vendor/art-of-wifi/unifi-network-application-api-client/src/Filters/SupportingResources/DpiCategoriesFilter.php:21 | the documented example serialises to `name.eq('Social Networking')`, with `name` still current |
| `DpiCategoriesFilter.GamingExample` | vendor/art-of-wifi/unifi-network-application-api-client/src/Filters/SupportingResources/DpiCategoriesFilter.php:24 | the documented example serialises to `name.like('*Gaming*')`, with `name` still current |
| `DpiCategoriesFilter.IdsExample` | vendor/art-of-wifi/unifi-network-application-api-client/src/Filters/SupportingResources/DpiCategoriesFilter.php:27 | the documented example serialises to `id.in(1, 2, 3)`, with `id` still current |
| `VoucherFilter.Id` | vendor/art-of-wifi/unifi-network-application-api-client/src/Filters/Hotspot/VoucherFilter.php:42-45 | a builder started on `id`: no conditions yet and `id` current, so every operator applies to it |
| `VoucherFilter.Name` | vendor/art-of-wifi/unifi-network-application-api-client/src/Filters/Hotspot/VoucherFilter.php:52-55 | a builder started on `name`: no conditions yet and `name` current, so every operator applies to it |
| `VoucherFilter.Code` | vendor/art-of-wifi/unifi-network-application-api-client/src/Filters/Hotspot/VoucherFilter.php:62-65 | a builder started on `code`: no conditions yet and `code` current, so every operator applies to it |
| `VoucherFilter.Expired` | vendor/art-of-wifi/unifi-network-application-api-client/src/Filters/Hotspot/VoucherFilter.php:72-75 | a builder started on `expired`: no conditions yet and `expired` current, so every operator applies to it |
| `VoucherFilter.Active` | vendor/art-of-wifi/unifi-network-application-api-client/src/Filters/Hotspot/VoucherFilter.php:82-85 | the preset serialises to `expired.eq(false)`, with `expired` still current |
| `VoucherFilter.ExpiredOnly` | vendor/art-of-wifi/unifi-network-application-api-client/src/Filters/Hotspot/VoucherFilter.php:90-93 | the preset serialises to `expired.eq(true)`, with `expired` still current |
| `VoucherFilter.EventExample` | vendor/art-of-wifi/unifi-network-application-api-client/src/Filters/Hotspot/VoucherFilter.php:23 | the documented example serialises to `name.like('Event*')`, with `name` still current |
| `VoucherFilter.CodeExample` | vendor/art-of-wifi/unifi-network-application-api-client/src/Filters/Hotspot/VoucherFilter.php:32 | the documented example serialises to `code.eq('ABC123')`, with `code` still current |
| `WifiBroadcastFilter.Id` | vendor/art-of-wifi/unifi-network-application-api-client/src/Filters/WifiBroadcasts/WifiBroadcastFilter.php:39-42 | a builder started on `id`: no conditions yet and `id` current, so every operator applies to it |
| `WifiBroadcastFilter.Name` | vendor/art-of-wifi/unifi-network-application-api-client/src/Filters/WifiBroadcasts/WifiBroadcastFilter.php:49-52 | a builder started on `name`: no conditions yet and `name` current, so every operator applies to it |
| `WifiBroadcastFilter.Type` | vendor/art-of-wifi/unifi-network-application-api-client/src/Filters/WifiBroadcasts/WifiBroadcastFilter.php:59-62 | a builder started on `type`: no conditions yet and `type` current, so every operator applies to it |
| `WifiBroadcastFilter.Enabled` | vendor/art-of-wifi/unifi-network-application-api-client/src/Filters/WifiBroadcasts/WifiBroadcastFilter.php:69-72 | a builder started on `enabled`: no conditions yet and `enabled` current, so every operator applies to it |
| `WifiBroadcastFilter.EnabledOnly` | vendor/art-of-wifi/unifi-network-application-api-client/src/Filters/WifiBroadcasts/WifiBroadcastFilter.php:79-82 | the preset serialises to `enabled.eq(true)`, with `enabled` still current |
| `WifiBroadcastFilter.DisabledOnly` | vendor/art-of-wifi/unifi-network-application-api-client/src/Filters/WifiBroadcasts/WifiBroadcastFilter.php:87-90 | the preset serialises to `enabled.eq(false)`, with `enabled` still current |
| `WifiBroadcastFilter.GuestPrefixExample` | vendor/art-of-wifi/unifi-network-application-api-client/src/Filters/WifiBroadcasts/WifiBroadcastFilter.php:23 | the documented example serialises to `name.like('Guest*')`, with `name` still current |
| `AclRuleFilter.Id` | vendor/art-of-wifi/unifi-network-application-api-client/src/Filters/AclRules/AclRuleFilter.php:40-43 | a builder started on `id`: no conditions yet and `id` current, so every operator applies to it |
| `AclRuleFilter.Name` | vendor/art-of-wifi/unifi-network-application-api-client/src/Filters/AclRules/AclRuleFilter.php:50-53 | a builder started on `name`: no conditions yet and `name` current, so every operator applies to it |
| `AclRuleFilter.Type` | vendor/art-of-wifi/unifi-network-application-api-client/src/Filters/AclRules/AclRuleFilter.php:60-63 | a builder started on `type`: no conditions yet and `type` current, so every operator applies to it |
| `AclRuleFilter.Enabled` | vendor/art-of-wifi/unifi-network-application-api-client/src/Filters/AclRules/AclRuleFilter.php:70-73 | a builder started on `enabled`: no conditions yet and `enabled` current, so every operator applies to it |
| `AclRuleFilter.Action` | vendor/art-of-wifi/unifi-network-application-api-client/src/Filters/AclRules/AclRuleFilter.php:80-83 | a builder started on `action`: no conditions yet and `action` current, so every operator applies to it |
| `AclRuleFilter.EnabledOnly` | vendor/art-of-wifi/unifi-network-application-api-client/src/Filters/AclRules/AclRuleFilter.php:90-93 | the preset serialises to `enabled.eq(true)`, with `enabled` still current |
| `AclRuleFilter.DisabledOnly` | vendor/art-of-wifi/unifi-network-application-api-client/src/Filters/AclRules/AclRuleFilter.php:98-101 | the preset serialises to `enabled.eq(false)`, with `enabled` still current |
| `AclRuleFilter.BlockPrefixExample` | vendor/art-of-wifi/unifi-network-application-api-client/src/Filters/AclRules/AclRuleFilter.php:24 | the documented example serialises to `name.like('Block*')`, with `name` still current |
| `AclRuleFilter.BlockActionExample` | vendor/art-of-wifi/unifi-network-application-api-client/src/Filters/AclRules/AclRuleFilter.php:30 | the documented example serialises to `action.eq('BLOCK')`, with `action` still current |
| `VpnServersFilter.Type` | vendor/art-of-wifi/unifi-network-application-api-client/src/Filters/SupportingResources/VpnServersFilter.php:40-43 | a builder started on `type`: no conditions yet and `type` current, so every operator applies to it |
| `VpnServersFilter.Id` | vendor/art-of-wifi/unifi-network-application-api-client/src/Filters/SupportingResources/VpnServersFilter.php:50-53 | a builder started on `id`: no conditions yet and `id` current, so every operator applies to it |
| `VpnServersFilter.Name` | vendor/art-of-wifi/unifi-network-application-api-client/src/Filters/SupportingResources/VpnServersFilter.php:60-63 | a builder started on `name`: no conditions yet and `name` current, so every operator applies to it |
| `VpnServersFilter.Enabled` | vendor/art-of-wifi/unifi-network-application-api-client/src/Filters/SupportingResources/VpnServersFilter.php:70-73 | a builder started on `enabled`: no conditions yet and `enabled` current, so every operator applies to it |
| `VpnServersFilter.MetadataOrigin` | vendor/art-of-wifi/unifi-network-application-api-client/src/Filters/SupportingResources/VpnServersFilter.php:80-83 | a builder started on `metadata.origin`: no conditions yet and `metadata.origin` current, so every operator applies to it |
| `VpnServersFilter.EnabledOnly` | vendor/art-of-wifi/unifi-network-application-api-client/src/Filters/SupportingResources/VpnServersFilter.php:90-93 | the preset serialises to `enabled.eq(true)`, with `enabled` still current |
| `VpnServersFilter.DisabledOnly` | vendor/art-of-wifi/unifi-network-application-api-client/src/Filters/SupportingResources/VpnServersFilter.php:98-101 | the preset serialises to `enabled.eq(false)`, with `enabled` still current |
| `VpnServersFilter.RemotePrefixExample` | vendor/art-of-wifi/unifi-network-application-api-client/src/Filters/SupportingResources/VpnServersFilter.php:27 | the documented example serialises to `name.like('Remote*')`, with `name` still current |
| `VpnServersFilter.L2tpExample` | vendor/art-of-wifi/unifi-network-application-api-client/src/Filters/SupportingResources/VpnServersFilter.php:30 | the documented example serialises to `type.eq('L2TP')`, with `type` still current |
| `FirewallZoneFilter.Id` | vendor/art-of-wifi/unifi-network-application-api-client/src/Filters/Firewall/FirewallZoneFilter.php:38-41 | a builder started on `id`: no conditions yet and `id` current, so every operator applies to it |
| `FirewallZoneFilter.Name` | vendor/art-of-wifi/unifi-network-application-api-client/src/Filters/Firewall/FirewallZoneFilter.php:48-51 | a builder started on `name`: no conditions yet and `name` current, so every operator applies to it |
| `FirewallZoneFilter.NetworkIds` | vendor/art-of-wifi/unifi-network-application-api-client/src/Filters/Firewall/FirewallZoneFilter.php:58-61 | a builder started on `networkIds`: no conditions yet and `networkIds` current, so every operator applies to it |
| `FirewallZoneFilter.EmptyZones` | vendor/art-of-wifi/unifi-network-application-api-client/src/Filters/Firewall/FirewallZoneFilter.php:68-71 | the preset serialises to `networkIds.isEmpty()`, with `networkIds` still current |
| `FirewallZoneFilter.DmzPrefixExample` | vendor/art-of-wifi/unifi-network-application-api-client/src/Filters/Firewall/FirewallZoneFilter.php:22 | the documented example serialises to `name.like('DMZ*')`, with `name` still current |
| `FirewallZoneFilter.NetworkExample` | vendor/art-of-wifi/unifi-network-application-api-client/src/Filters/Firewall/FirewallZoneFilter.php:25 | the documented example serialises to `networkIds.contains('550e8400-e29b-41d4-a716-446655440000')`, with `networkIds` still current |
| `FirewallPolicyFilter.Id` | vendor/art-of-wifi/unifi-network-application-api-client/src/Filters/Firewall/FirewallPolicyFilter.php:43-46 | a builder started on `id`: no conditions yet and `id` current, so every operator applies to it |
| `FirewallPolicyFilter.Name` | vendor/art-of-wifi/unifi-network-application-api-client/src/Filters/Firewall/FirewallPolicyFilter.php:53-56 | a builder started on `name`: no conditions yet and `name` current, so every operator applies to it |
| `FirewallPolicyFilter.SourceZoneId` | vendor/art-of-wifi/unifi-network-application-api-client/src/Filters/Firewall/FirewallPolicyFilter.php:63-66 | a builder started on `source.zoneId`: no conditions yet and `source.zoneId` current, so every operator applies to it |
| `FirewallPolicyFilter.DestinationZoneId` | vendor/art-of-wifi/unifi-network-application-api-client/src/Filters/Firewall/FirewallPolicyFilter.php:73-76 | a builder started on `destination.zoneId`: no conditions yet and `destination.zoneId` current, so every operator applies to it |
| `FirewallPolicyFilter.MetadataOrigin` | vendor/art-of-wifi/unifi-network-application-api-client/src/Filters/Firewall/FirewallPolicyFilter.php:83-86 | a builder started on `metadata.origin`: no conditions yet and `metadata.origin` current, so every operator applies to it |
| `FirewallPolicyFilter.BlockPrefixExample` | vendor/art-of-wifi/unifi-network-application-api-client/src/Filters/Firewall/FirewallPolicyFilter.php:24 | the documented example serialises to `name.like('Block*')`, with `name` still current |
| `FirewallPolicyFilter.SourceZoneExample` | vendor/art-of-wifi/unifi-network-application-api-client/src/Filters/Firewall/FirewallPolicyFilter.php:27 | the documented example serialises to `source.zoneId.eq('zone-uuid-here')`, with `source.zoneId` still current |
| `FirewallPolicyFilter.SourceZone1` | vendor/art-of-wifi/unifi-network-application-api-client/src/Filters/Firewall/FirewallPolicyFilter.php:31 | the documented example serialises to `source.zoneId.eq('zone-1')`, with `source.zoneId` still current |
| `FirewallPolicyFilter.DestinationZone2` | vendor/art-of-wifi/unifi-network-application-api-client/src/Filters/Firewall/FirewallPolicyFilter.php:32 | the documented example serialises to `destination.zoneId.eq('zone-2')`, with `destination.zoneId` still current |
| `FirewallPolicyFilter.ZonePairExample` | vendor/art-of-wifi/unifi-network-application-api-client/src/Filters/Firewall/FirewallPolicyFilter.php:30-33 | the documented example serialises to `and(source.zoneId.eq('zone-1'), destination.zoneId.eq('zone-2'))`, with no current property, so a further operator throws |
| `SiteToSiteVpnTunnelsFilter.Type` | vendor/art-of-wifi/unifi-network-application-api-client/src/Filters/SupportingResources/SiteToSiteVpnTunnelsFilter.php:40-43 | a builder started on `type`: no conditions yet and `type` current, so every operator applies to it |
| `SiteToSiteVpnTunnelsFilter.Id` | vendor/art-of-wifi/unifi-network-application-api-client/src/Filters/SupportingResources/SiteToSiteVpnTunnelsFilter.php:50-53 | a builder started on `id`: no conditions yet and `id` current, so every operator applies to it |
| `SiteToSiteVpnTunnelsFilter.Name` | vendor/art-of-wifi/unifi-network-application-api-client/src/Filters/SupportingResources/SiteToSiteVpnTunnelsFilter.php:60-63 | a builder started on `name`: no conditions yet and `name` current, so every operator applies to it |
| `SiteToSiteVpnTunnelsFilter.MetadataOrigin` | vendor/art-of-wifi/unifi-network-application-api-client/src/Filters/SupportingResources/SiteToSiteVpnTunnelsFilter.php:70-73 | a builder started on `metadata.origin`: no conditions yet and `metadata.origin` current, so every operator applies to it |
| `SiteToSiteVpnTunnelsFilter.MetadataSource` | vendor/art-of-wifi/unifi-network-application-api-client/src/Filters/SupportingResources/SiteToSiteVpnTunnelsFilter.php:80-83 | a builder started on `metadata.source`: no conditions yet and `metadata.source` current, so every operator applies to it |
| `SiteToSiteVpnTunnelsFilter.OfficeExample` | vendor/art-of-wifi/unifi-network-application-api-client/src/Filters/SupportingResources/SiteToSiteVpnTunnelsFilter.php:24 | the documented example serialises to `name.eq('Office-to-AWS')`, with `name` still current |
| `SiteToSiteVpnTunnelsFilter.L2tpExample` | vendor/art-of-wifi/unifi-network-application-api-client/src/Filters/SupportingResources/SiteToSiteVpnTunnelsFilter.php:27 | the documented example serialises to `type.eq('L2TP')`, with `type` still current |
| `SiteToSiteVpnTunnelsFilter.WithSourceExample` | vendor/art-of-wifi/unifi-network-application-api-client/src/Filters/SupportingResources/SiteToSiteVpnTunnelsFilter.php:30 | the documented example serialises to `metadata.source.isNotNull()`, with `metadata.source` still current |
| `TrafficMatchingListFilter.Id` | vendor/art-of-wifi/unifi-network-application-api-client/src/Filters/TrafficMatchingLists/TrafficMatchingListFilter.php:35-38 | a builder started on `id`: no conditions yet and `id` current, so every operator applies to it |
| `TrafficMatchingListFilter.Name` | vendor/art-of-wifi/unifi-network-application-api-client/src/Filters/TrafficMatchingLists/TrafficMatchingListFilter.php:45-48 | a builder started on `name`: no conditions yet and `name` current, so every operator applies to it |
| `TrafficMatchingListFilter.Type` | vendor/art-of-wifi/unifi-network-application-api-client/src/Filters/TrafficMatchingLists/TrafficMatchingListFilter.php:55-58 | a builder started on `type`: no conditions yet and `type` current, so every operator applies to it |
| `TrafficMatchingListFilter.BlockedPrefixExample` | vendor/art-of-wifi/unifi-network-application-api-client/src/Filters/TrafficMatchingLists/TrafficMatchingListFilter.php:22 | the documented example serialises to `name.like('Blocked*')`, with `name` still current |
| `TrafficMatchingListFilter.IpAddressListsExample` | vendor/art-of-wifi/unifi-network-application-api-client/src/Filters/TrafficMatchingLists/TrafficMatchingListFilter.php:25 | the documented example serialises to `type.eq('IP_ADDRESS')`, with `type` still current |
| `SitesFilter.Id` | vendor/art-of-wifi/unifi-network-application-api-client/src/Filters/Sites/SitesFilter.php:38-41 | a builder started on `id`: no conditions yet and `id` current, so every operator applies to it |
| `SitesFilter.InternalReference` | vendor/art-of-wifi/unifi-network-application-api-client/src/Filters/Sites/SitesFilter.php:48-51 | a builder started on `internalReference`: no conditions yet and `internalReference` current, so every operator applies to it |
| `SitesFilter.Name` | vendor/art-of-wifi/unifi-network-application-api-client/src/Filters/Sites/SitesFilter.php:58-61 | a builder started on `name`: no conditions yet and `name` current, so every operator applies to it |
| `SitesFilter.DefaultExample` | vendor/art-of-wifi/unifi-network-application-api-client/src/Filters/Sites/SitesFilter.php:25 | the documented example serialises to `name.eq('Default')`, with `name` still current |
| `SitesFilter.IdsExample` | vendor/art-of-wifi/unifi-network-application-api-client/src/Filters/Sites/SitesFilter.php:28 | the documented example serialises to `id.in('uuid1', 'uuid2', 'uuid3')`, with `id` still current |
| `RadiusProfilesFilter.Id` | vendor/art-of-wifi/unifi-network-application-api-client/src/Filters/SupportingResources/RadiusProfilesFilter.php:35-38 | a builder started on `id`: no conditions yet and `id` current, so every operator applies to it |
| `RadiusProfilesFilter.Name` | vendor/art-of-wifi/unifi-network-application-api-client/src/Filters/SupportingResources/RadiusProfilesFilter.php:45-48 | a builder started on `name`: no conditions yet and `name` current, so every operator applies to it |
| `RadiusProfilesFilter.MetadataOrigin` | vendor/art-of-wifi/unifi-network-application-api-client/src/Filters/SupportingResources/RadiusProfilesFilter.php:55-58 | a builder started on `metadata.origin`: no conditions yet and `metadata.origin` current, so every operator applies to it |
| `RadiusProfilesFilter.CorporateExample` | vendor/art-of-wifi/unifi-network-application-api-client/src/Filters/SupportingResources/RadiusProfilesFilter.php:22 | the documented example serialises to `name.eq('Corporate')`, with `name` still current |
| `RadiusProfilesFilter.GuestPrefixExample` | vendor/art-of-wifi/unifi-network-application-api-client/src/Filters/SupportingResources/RadiusProfilesFilter.php:25 | the documented example serialises to `name.like('Guest*')`, with `name` still current |
| `DeviceTagsFilter.Id` | vendor/art-of-wifi/unifi-network-application-api-client/src/Filters/SupportingResources/DeviceTagsFilter.php:38-41 | a builder started on `id`: no conditions yet and `id` current, so every operator applies to it |
| `DeviceTagsFilter.Name` | vendor/art-of-wifi/unifi-network-application-api-client/src/Filters/SupportingResources/DeviceTagsFilter.php:48-51 | a builder started on `name`: no conditions yet and `name` current, so every operator applies to it |
| `DeviceTagsFilter.DeviceIds` | vendor/art-of-wifi/unifi-network-application-api-client/src/Filters/SupportingResources/DeviceTagsFilter.php:58-61 | a builder started on `deviceIds`: no conditions yet and `deviceIds` current, so every operator applies to it |
| `DeviceTagsFilter.OfficeExample` | vendor/art-of-wifi/unifi-network-application-api-client/src/Filters/SupportingResources/DeviceTagsFilter.php:22 | the documented example serialises to `name.eq('Office')`, with `name` still current |
| `DeviceTagsFilter.DeviceExample` | vendor/art-of-wifi/unifi-network-application-api-client/src/Filters/SupportingResources/DeviceTagsFilter.php:25 | the documented example serialises to `deviceIds.contains('device-uuid-here')`, with `deviceIds` still current |
| `DeviceTagsFilter.AnyDeviceExample` | vendor/art-of-wifi/unifi-network-application-api-client/src/Filters/SupportingResources/DeviceTagsFilter.php:28 | the documented example serialises to `deviceIds.containsAny('uuid1', 'uuid2')`, with `deviceIds` still current |
| `CountriesFilter.CodeIn` | vendor/art-of-wifi/unifi-network-application-api-client/src/Filters/SupportingResources/CountriesFilter.php:92-99 | `code()->in($codes)` for codes without quotes: the codes quoted and separated by `, `, with `code` still current |
| `CountriesFilter.EuropeanUnion` | vendor/art-of-wifi/unifi-network-application-api-client/src/Filters/SupportingResources/CountriesFilter.php:92-99 | `code.in(...)` over the 27 member-state codes, in the source's order, with `code` still current |
| `DpiApplicationsFilter.NameLike` | vendor/art-of-wifi/unifi-network-application-api-client/src/Filters/SupportingResources/DpiApplicationsFilter.php:81-90 | `name()->like($pattern)` for a pattern without quotes renders `name.like('pattern')`, with `name` still current |
| `DpiApplicationsFilter.AnyNameLike` | vendor/art-of-wifi/unifi-network-application-api-client/src/Filters/SupportingResources/DpiApplicationsFilter.php:81-90 | the `or` of one `name.like` per pattern, in the order given, with no current property |
| `DpiApplicationsFilter.StreamingServices` | vendor/art-of-wifi/unifi-network-application-api-client/src/Filters/SupportingResources/DpiApplicationsFilter.php:81-90 | serialises to `or(name.like('*Netflix*'), name.like('*YouTube*'), name.like('*Prime*'), name.like('*Disney*'), name.like('*Hulu*'))` |
| `TrafficMatchingListFilter.BareAccessorsRenderEmpty` | vendor/art-of-wifi/unifi-network-application-api-client/src/Filters/TrafficMatchingLists/TrafficMatchingListFilter.php:35-58 | a bare accessor holds no condition and serialises to the empty string |
| `ListRequests.FilterText` | vendor/art-of-wifi/unifi-network-application-api-client/src/Requests/WifiBroadcasts/GetWifiBroadcastsRequest.php:42-47 | a `Filter` is sent as its `toString()`, a string as it is |
| `ListRequests.OptionalFilterText` | vendor/art-of-wifi/unifi-network-application-api-client/src/Requests/WifiBroadcasts/GetWifiBroadcastsRequest.php:42-47 | there is a filter text exactly when a filter was given |
| `ListRequests.ListQuery` | vendor/art-of-wifi/unifi-network-application-api-client/src/Requests/WifiBroadcasts/GetWifiBroadcastsRequest.php:30-50 | builds the query one key at a time; the result keeps the promise `IsListQuery` (each key holds its argument, only non-null ones, in the order offset, limit, filter) |
| `ListRequests.GetWifiBroadcastsRequest.ResolveEndpoint` | vendor/art-of-wifi/unifi-network-application-api-client/src/Requests/WifiBroadcasts/GetWifiBroadcastsRequest.php:25-28 | a path under `/v1/sites/` from which the site id is read back, for a site id without a slash |
| `ListRequests.GetFirewallZonesRequest.ResolveEndpoint` | vendor/art-of-wifi/unifi-network-application-api-client/src/Requests/Firewall/GetFirewallZonesRequest.php:25-28 | a path under `/v1/sites/` from which the site id is read back, for a site id without a slash |
| `ListRequests.GetWanInterfacesRequest.ResolveEndpoint` | vendor/art-of-wifi/unifi-network-application-api-client/src/Requests/SupportingResources/GetWanInterfacesRequest.php:23-26 | a path under `/v1/sites/` from which the site id is read back, for a site id without a slash |
| `ListRequests.GetCountriesRequest.ResolveEndpoint` | vendor/art-of-wifi/unifi-network-application-api-client/src/Requests/SupportingResources/GetCountriesRequest.php:24-27 | a path outside every site |
| `ListRequests.GetSitesRequest.ResolveEndpoint` | vendor/art-of-wifi/unifi-network-application-api-client/src/Requests/Sites/GetSitesRequest.php:23-26 | a path outside every site: the list of sites is not under one |
| `ListRequests.CanonicalMeetsPromise` | vendor/art-of-wifi/unifi-network-application-api-client/src/Requests/WifiBroadcasts/GetWifiBroadcastsRequest.php:30-50 | the array of the present parameters, in the order offset, limit, filter, keeps the promise |
| `ListRequests.ListQueryShape` | vendor/art-of-wifi/unifi-network-application-api-client/src/Requests/WifiBroadcasts/GetWifiBroadcastsRequest.php:30-50 | the promise has one answer: any array that keeps it is exactly the one the request builds |
| `ListRequests.EmptyListQuery` | vendor/art-of-wifi/unifi-network-application-api-client/src/Requests/WifiBroadcasts/GetWifiBroadcastsRequest.php:30-50 | with no offset, limit or filter the query is the empty array |
| `ListRequests.GetWifiBroadcastsRequest.DefaultQuery` | vendor/art-of-wifi/unifi-network-application-api-client/src/Requests/WifiBroadcasts/GetWifiBroadcastsRequest.php:30-50 | `offset`, `limit`, `filter` present exactly when given, with the given integers and the filter's text, in that order, nothing else |
| `ListRequests.GetFirewallZonesRequest.DefaultQuery` | vendor/art-of-wifi/unifi-network-application-api-client/src/Requests/Firewall/GetFirewallZonesRequest.php:30-50 | as for the WiFi broadcasts: the given parameters only, in order, the filter as its text |
| `ListRequests.GetCountriesRequest.DefaultQuery` | vendor/art-of-wifi/unifi-network-application-api-client/src/Requests/SupportingResources/GetCountriesRequest.php:29-49 | as for the WiFi broadcasts: the given parameters only, in order, the filter as its text |
| `ListRequests.GetSitesRequest.DefaultQuery` | vendor/art-of-wifi/unifi-network-application-api-client/src/Requests/Sites/GetSitesRequest.php:28-45 | the given offset, limit and string filter only, in that order |
| `ListRequests.GetWanInterfacesRequest.DefaultQuery` | vendor/art-of-wifi/unifi-network-application-api-client/src/Requests/SupportingResources/GetWanInterfacesRequest.php:28-41 | the given offset and limit only, in that order, and never a `filter` key |
| `ListRequests.SitePathInjective` | vendor/art-of-wifi/unifi-network-application-api-client/src/Requests/WifiBroadcasts/GetWifiBroadcastsRequest.php:25-28 | a site path with a fixed suffix gives back the site id |
| `ListRequests.EndpointsDetermineSite` | vendor/art-of-wifi/unifi-network-application-api-client/src/Requests/WifiBroadcasts/GetWifiBroadcastsRequest.php:25-28 | different sites get different endpoints for the WiFi broadcasts, firewall zones and WAN interfaces |
| `ListRequests.WifiBroadcastsPage` | vendor/art-of-wifi/unifi-network-application-api-client/src/Requests/WifiBroadcasts/GetWifiBroadcastsRequest.php:30-50 | offset 0, limit 25 and `enabled.eq(true)` give `['offset' => 0, 'limit' => 25, 'filter' => 'enabled.eq(true)']` |
| `DeleteRequests.ForceQueryShape` | vendor/art-of-wifi/unifi-network-application-api-client/src/Requests/Networks/DeleteNetworkRequest.php:28-31 | the promise fixes the query: `['force' => 'true']` when forcing, `[]` otherwise |
| `DeleteRequests.DeleteTrafficMatchingListRequest.DefaultQuery` | vendor/art-of-wifi/unifi-network-application-api-client/src/Requests/TrafficMatchingLists/DeleteTrafficMatchingListRequest.php:28-31 | at most one entry, keyed `force`, present with the string `'true'` exactly when forcing |
| `DeleteRequests.DeleteWifiBroadcastRequest.DefaultQuery` | vendor/art-of-wifi/unifi-network-application-api-client/src/Requests/WifiBroadcasts/DeleteWifiBroadcastRequest.php:28-31 | at most one entry, keyed `force`, present with the string `'true'` exactly when forcing |
| `DeleteRequests.DeleteFirewallZoneRequest.DefaultQuery` | vendor/art-of-wifi/unifi-network-application-api-client/src/Requests/Firewall/DeleteFirewallZoneRequest.php:28-31 | at most one entry, keyed `force`, present with the string `'true'` exactly when forcing |
| `DeleteRequests.DeleteNetworkRequest.DefaultQuery` | vendor/art-of-wifi/unifi-network-application-api-client/src/Requests/Networks/DeleteNetworkRequest.php:28-31 | at most one entry, keyed `force`, present with the string `'true'` exactly when forcing |
| `DeleteRequests.DeleteAclRuleRequest.DefaultQuery` | vendor/art-of-wifi/unifi-network-application-api-client/src/Requests/AclRules/DeleteAclRuleRequest.php:28-31 | at most one entry, keyed `force`, present with the string `'true'` exactly when forcing |
| `DeleteRequests.ItemPathInjective` | vendor/art-of-wifi/unifi-network-application-api-client/src/Requests/Networks/DeleteNetworkRequest.php:23-26 | an item path gives back both the site id and the item id, for site ids without a slash |
| `DeleteRequests.DeleteTrafficMatchingListRequest.ResolveEndpoint` | vendor/art-of-wifi/unifi-network-application-api-client/src/Requests/TrafficMatchingLists/DeleteTrafficMatchingListRequest.php:23-26 | the site's path, from which the site id is read back, ending in `/` and the list id |
| `DeleteRequests.DeleteWifiBroadcastRequest.ResolveEndpoint` | vendor/art-of-wifi/unifi-network-application-api-client/src/Requests/WifiBroadcasts/DeleteWifiBroadcastRequest.php:23-26 | the site's path, from which the site id is read back, ending in `/` and the broadcast id |
| `DeleteRequests.DeleteFirewallZoneRequest.ResolveEndpoint` | vendor/art-of-wifi/unifi-network-application-api-client/src/Requests/Firewall/DeleteFirewallZoneRequest.php:23-26 | the site's path, from which the site id is read back, ending in `/` and the zone id |
| `DeleteRequests.DeleteNetworkRequest.ResolveEndpoint` | vendor/art-of-wifi/unifi-network-application-api-client/src/Requests/Networks/DeleteNetworkRequest.php:23-26 | the site's path, from which the site id is read back, ending in `/` and the network id |
| `DeleteRequests.DeleteAclRuleRequest.ResolveEndpoint` | vendor/art-of-wifi/unifi-network-application-api-client/src/Requests/AclRules/DeleteAclRuleRequest.php:23-26 | the site's path, from which the site id is read back, ending in `/` and the rule id |
| `DeleteRequests.DeleteTrafficMatchingListEndpoint` | vendor/art-of-wifi/unifi-network-application-api-client/src/Requests/TrafficMatchingLists/DeleteTrafficMatchingListRequest.php:23-26 | two requests hit the same endpoint if and only if they name the same site and the same list |
| `DeleteRequests.DeleteWifiBroadcastEndpoint` | vendor/art-of-wifi/unifi-network-application-api-client/src/Requests/WifiBroadcasts/DeleteWifiBroadcastRequest.php:23-26 | two requests hit the same endpoint if and only if they name the same site and the same broadcast |
| `DeleteRequests.DeleteFirewallZoneEndpoint` | vendor/art-of-wifi/unifi-network-application-api-client/src/Requests/Firewall/DeleteFirewallZoneRequest.php:23-26 | two requests hit the same endpoint if and only if they name the same site and the same zone |
| `DeleteRequests.DeleteNetworkEndpoint` | vendor/art-of-wifi/unifi-network-application-api-client/src/Requests/Networks/DeleteNetworkRequest.php:23-26 | two requests hit the same endpoint if and only if they name the same site and the same network |
| `DeleteRequests.DeleteAclRuleEndpoint` | vendor/art-of-wifi/unifi-network-application-api-client/src/Requests/AclRules/DeleteAclRuleRequest.php:23-26 | two requests hit the same endpoint if and only if they name the same site and the same rule |
| `DeleteRequests.ItemsUnderTheirList` | vendor/art-of-wifi/unifi-network-application-api-client/src/Requests/WifiBroadcasts/DeleteWifiBroadcastRequest.php:23-26 | a broadcast or zone is deleted at its site's list endpoint followed by `/` and its id |
| `DeleteRequests.ForceOnlyInQuery` | vendor/art-of-wifi/unifi-network-application-api-client/src/Requests/Networks/DeleteNetworkRequest.php:17-31 | forcing leaves the endpoint alone and changes the query |
| `DeleteRequests.DefaultsDoNotForce` | vendor/art-of-wifi/unifi-network-application-api-client/src/Requests/TrafficMatchingLists/DeleteTrafficMatchingListRequest.php:17-31 | without the flag `force` is false and no query parameter is sent, for all five requests |
| `Connector.UnifiConnector.ResolveBaseUrl` | vendor/art-of-wifi/unifi-network-application-api-client/src/UnifiConnector.php:41-44 | the base URL with exactly its trailing slashes removed, then `/proxy/network/integration` |
| `Connector.UnifiConnector.DefaultHeaders` | vendor/art-of-wifi/unifi-network-application-api-client/src/UnifiConnector.php:49-57 | exactly the headers `Accept`, `Content-Type`, `X-API-KEY`, `User-Agent`, in that order: JSON twice, the API key and `unifi-api-client-php/1.0.0` |
| `Connector.UnifiConnector.DefaultConfig` | vendor/art-of-wifi/unifi-network-application-api-client/src/UnifiConnector.php:62-68 | exactly `verify`, holding the TLS switch, and `timeout`, holding 30 |
| `Connector.TrailingSlashIrrelevant` | vendor/art-of-wifi/unifi-network-application-api-client/src/UnifiConnector.php:41-44 | one more trailing slash on the base URL resolves to the same URL |
| `Connector.UrlWithoutTrailingSlash` | vendor/art-of-wifi/unifi-network-application-api-client/src/UnifiConnector.php:41-44 | a base URL with no trailing slash is kept as it is |
| `Connector.ResolveIdempotent` | vendor/art-of-wifi/unifi-network-application-api-client/src/UnifiConnector.php:41-44 | resolving a base URL already trimmed gives the same URL |
| `Connector.ControllerExample` | vendor/art-of-wifi/unifi-network-application-api-client/src/UnifiConnector.php:28-44 | `https://192.168.1.1`, with or without a trailing slash, resolves to `https://192.168.1.1/proxy/network/integration` |
| `Connector.HeadersFromKey` | vendor/art-of-wifi/unifi-network-application-api-client/src/UnifiConnector.php:49-57 | two connectors send the same headers except `X-API-KEY`, which is each one's key |
| `Resources.BaseResource.RequireSiteId` | vendor/art-of-wifi/unifi-network-application-api-client/src/Resources/BaseResource.php:47-57 | throws the `RuntimeException` with the source's message if and only if there is no site id, and otherwise returns it |
| `Resources.AccessorsGiveConstruction` | vendor/art-of-wifi/unifi-network-application-api-client/src/Resources/BaseResource.php:21-40 | `getConnector` and `getSiteId` give back what the resource was built with; without a site id the guard throws |
| `Client.UnifiClient.constructor` | vendor/art-of-wifi/unifi-network-application-api-client/src/UnifiClient.php:45-51 | a connector built on the arguments, TLS verification on by default, and no site id |
| `Client.UnifiClient.GetVersion` | vendor/art-of-wifi/unifi-network-application-api-client/src/UnifiClient.php:56-59 | the library's version `1.0.0` |
| `Client.UnifiClient.SetSiteId` | vendor/art-of-wifi/unifi-network-application-api-client/src/UnifiClient.php:78-83 | sets the site id in place and returns the client itself |
| `Client.UnifiClient.ApplicationInfo` | vendor/art-of-wifi/unifi-network-application-api-client/src/UnifiClient.php:96-99 | an application-info resource with the client's connector and no site id |
| `Client.UnifiClient.Sites` | vendor/art-of-wifi/unifi-network-application-api-client/src/UnifiClient.php:104-107 | a resource of that kind carrying the client's connector and its current site id |
| `Client.UnifiClient.Devices` | vendor/art-of-wifi/unifi-network-application-api-client/src/UnifiClient.php:112-115 | a resource of that kind carrying the client's connector and its current site id |
| `Client.UnifiClient.Clients` | vendor/art-of-wifi/unifi-network-application-api-client/src/UnifiClient.php:120-123 | a resource of that kind carrying the client's connector and its current site id |
| `Client.UnifiClient.Networks` | vendor/art-of-wifi/unifi-network-application-api-client/src/UnifiClient.php:128-131 | a resource of that kind carrying the client's connector and its current site id |
| `Client.UnifiClient.WifiBroadcasts` | vendor/art-of-wifi/unifi-network-application-api-client/src/UnifiClient.php:136-139 | a resource of that kind carrying the client's connector and its current site id |
| `Client.UnifiClient.Hotspot` | vendor/art-of-wifi/unifi-network-application-api-client/src/UnifiClient.php:144-147 | a resource of that kind carrying the client's connector and its current site id |
| `Client.UnifiClient.Firewall` | vendor/art-of-wifi/unifi-network-application-api-client/src/UnifiClient.php:152-155 | a resource of that kind carrying the client's connector and its current site id |
| `Client.UnifiClient.AclRules` | vendor/art-of-wifi/unifi-network-application-api-client/src/UnifiClient.php:160-163 | a resource of that kind carrying the client's connector and its current site id |
| `Client.UnifiClient.TrafficMatchingLists` | vendor/art-of-wifi/unifi-network-application-api-client/src/UnifiClient.php:168-171 | a resource of that kind carrying the client's connector and its current site id |
| `Client.UnifiClient.DnsPolicies` | vendor/art-of-wifi/unifi-network-application-api-client/src/UnifiClient.php:176-179 | a resource of that kind carrying the client's connector and its current site id |
| `Client.UnifiClient.SupportingResources` | vendor/art-of-wifi/unifi-network-application-api-client/src/UnifiClient.php:187-190 | a resource of that kind carrying the client's connector and its current site id |
| `Client.UnifiClient.Resource` | vendor/art-of-wifi/unifi-network-application-api-client/src/UnifiClient.php:96-190 | every factory at once: the kind asked for, the client's connector, and its site id except for the application info |
| `Client.SiteIdPropagates` | vendor/art-of-wifi/unifi-network-application-api-client/src/UnifiClient.php:78-190 | before `setSiteId` every resource's guard throws; after it `getSiteId()` reports the id, each site-scoped resource finds it, the application info never |
| `Client.ResourcesAreSnapshots` | vendor/art-of-wifi/unifi-network-application-api-client/src/UnifiClient.php:78-115 | a resource keeps the site id it was made with when the client's id changes later |
| `Client.ClientConnector` | vendor/art-of-wifi/unifi-network-application-api-client/src/UnifiClient.php:45-67 | the client reports version `1.0.0` and the connector of its arguments, whose base URL ignores a trailing slash |
| `Text.TrimRightIdempotent` | vendor/art-of-wifi/unifi-network-application-api-client/src/UnifiConnector.php:43 | `rtrim` twice is `rtrim` once |
| `Text.TrimRight` | vendor/art-of-wifi/unifi-network-application-api-client/src/UnifiConnector.php:43 | `rtrim`: the result is a prefix of the input, does not end in the character, and only that character was removed |
| `Text.IntToString` | vendor/art-of-wifi/unifi-network-application-api-client/src/Filters/Filter.php:444-446 | `(string) $int` is canonical decimal: a minus sign exactly for negatives, no leading zero, and it reads back as the integer |
| `Text.NatToString` | vendor/art-of-wifi/unifi-network-application-api-client/src/Filters/Filter.php:444-446 | the digits of a non-negative integer: no leading zero, and they read back as the number |
| `Text.JoinLength` | vendor/art-of-wifi/unifi-network-application-api-client/src/Filters/Filter.php:377 | `implode` is as long as the parts together plus one separator between each two |
| `PhpArrays.Lookup` | vendor/art-of-wifi/unifi-network-application-api-client/src/Requests/WifiBroadcasts/GetWifiBroadcastsRequest.php:34-46 | `$a[$k] ?? null` is null exactly when the key is absent, and otherwise a value stored under that key |
| `PhpArrays.PutLookup` | vendor/art-of-wifi/unifi-network-application-api-client/src/Requests/WifiBroadcasts/GetWifiBroadcastsRequest.php:34-46 | after `$query[$k] = $v` the key holds `$v` |
| `PhpArrays.PutLookupOther` | vendor/art-of-wifi/unifi-network-application-api-client/src/Requests/WifiBroadcasts/GetWifiBroadcastsRequest.php:34-46 | the assignment leaves every other key's value alone |
| `PhpArrays.PutNew` | vendor/art-of-wifi/unifi-network-application-api-client/src/Requests/WifiBroadcasts/GetWifiBroadcastsRequest.php:34-46 | assigning a new key appends it at the end |
| `PhpArrays.PutExisting` | vendor/art-of-wifi/unifi-network-application-api-client/src/Requests/WifiBroadcasts/GetWifiBroadcastsRequest.php:34-46 | assigning an existing key keeps the keys and their order |

## Left out

- HTTP I/O through Saloon is not modelled: sending requests, responses, DTOs, and joining the base URL with an endpoint. The model stops at the endpoint, the query array, the headers and the client options.
- The resource façades other than `BaseResource` (`Resources/*.php`) are not modelled, because they only build a request and send it. The same goes for the request classes outside the core, including the other delete requests such as those for DNS policies, vouchers and firewall policies.
- `Filters.Filter.And`, `Filters.Filter.Or`: a combined builder records its children's states when it is created. PHP keeps references to the child objects, so a child changed later would change the combined text in PHP but not in the model.
- `ListRequests.FilterText`: a `Filter` passed to a request is read as its `toString()` value, the text it has when the query is built.
- `FilterSyntax.FormatValue`: the `float` branch is not modelled, because floating point is out of scope. Array elements are `string|int|bool|enum` values, and nested arrays, `null` and floats inside arrays are not modelled.
- `Enums.BackedEnum`: only the library's own string-backed enums `ClientType` and `ClientAccessType` are modelled as enum values. A caller's own `\BackedEnum`, including an int-backed one, which `Filters/Filter.php:436-446` sends as a bare number, is not.
- Each filter class's documented list of supported operators per property is not enforced, and neither is the source. Any operator can be applied to any property, as in PHP.
- Late static binding: `static::where` builds an instance of the subclass in PHP. In the model every filter is the same builder state, because the subclasses add no state of their own.
- `offset` and `limit` are unbounded integers in the request datatypes. Operator values are 64-bit, as PHP integers are.
- `DeleteRequests.ItemPathInjective` and the five per-request endpoint lemmas: they assume site ids without a slash. Without that, two different site and item pairs can give the same path.
- `UnifiClient::getVersion` reads a class constant, so it is modelled as a function with no state.
- The `index.php` entry scripts and the browser-facing code of the repository are not part of this model.
- Strings are sequences of Unicode characters, while PHP strings are bytes. Quote escaping and `rtrim($baseUrl, '/')` work the same either way, but length facts such as `FilterSyntax.EscapeLength` and `Text.JoinLength` count characters, not PHP's bytes, once the text is not ASCII.
