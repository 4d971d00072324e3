# Warp client sync core, in Dafny

This project models the client-side synchronisation library of the
stackless platform SDK and proves properties of that model. A client
program registers "warps" (deployed back ends), their data, service and
message classes, and then works with `Data` objects that mirror the
server's state. Every service call, data fetch and save goes through one
pipeline:

- the client serialises its arguments and its dirty `Data` objects into a
  flat list of objects that reference each other by index (`serde`);
- it sends the request over a socket to the platform (`river-client`,
  `outerspace-client`);
- it merges the data updates that come back into the live objects,
  keyed by class and primary key, with a per-object version counter and
  a property-level delta (`update-handler`, `serde`);
- it notifies the update listeners and message listeners the program
  registered (`tracker`, `registry`, `warp`);
- it reads the call's return value or maps the platform's error code to
  a name (`client`, `code`).

The model covers these steps:

- the keys, which identify everything by a canonical text;
- the key sets and maps;
- the registries;
- the unsigned 64-bit numbers that the wire format carries as two signed
  32-bit halves;
- the argument guards;
- the error-code table;
- serialisation and deserialisation, with their round trips;
- the delta merge and its version rules;
- the tracker's queues;
- the client's call pipeline and the `Warp` facade.

It also covers the command-line tool's pure rules:

- validation of identifiers and e-mail addresses;
- the platform's error payloads;
- the admin key file and the warp configuration file;
- the `connect` preflight;
- the client package generator's naming and dependency rules.

The JavaScript heap is a class `JsHeap.Heap` whose `objects` sequence
holds every live object. A reference is an index into that sequence, so
aliasing and in-place update stay visible. The socket, the server and the
clock are one class, `River.Platform`. Its methods record what was sent
and return whatever the platform answers, so every property holds for
every possible answer. Integers are unbounded; the 32-bit halves and the
64-bit truncation of `toLong` are written out.

## Model

| member | source | states |
|---|---|---|
| Unsigned.FromBigInt | client/src/internal/util/unsigned.ts:6-13 | the constructor succeeds exactly on a non-negative value and keeps it; a negative value raises "invalid negative value" |
| Unsigned.AsInt32 | client/src/internal/util/unsigned.ts:19-23 | a 32-bit half stored as a signed number is negative exactly when its top bit is set and agrees with the unsigned bits modulo 2^32 |
| Unsigned.AsUint32 | client/src/internal/util/unsigned.ts:36-37 | shifting a negative half up by UINT_MAX + 1 gives the same bits as an unsigned number below 2^32 |
| Unsigned.ToLong | client/src/internal/util/unsigned.ts:19-23 | `toLong` yields two valid signed halves whose unsigned readings are bits 0-31 and bits 32-63 of the value |
| Unsigned.FromLong | client/src/internal/util/unsigned.ts:33-44 | `fromLong` of any well-formed Long is a value below 2^64; its negative-value guard never fires |
| Unsigned.SplitAt32 | client/src/internal/util/unsigned.ts:20-21 | the high and low halves together hold exactly the value modulo 2^64 |
| Unsigned.ToLongTruncates | client/src/internal/util/unsigned.ts:19-44 | `toLong` then `fromLong` returns every value modulo 2^64: bits above 63 are lost |
| Unsigned.LongRoundTrip | runtime/tests/unsigned.test.ts:5-17 | every value below 2^64, 0 and ULONG_MAX included, survives `toLong` then `fromLong` |
| Unsigned.UnsignedRoundTrip | client/src/internal/util/unsigned.ts:19-44 | every well-formed Long survives `fromLong` then `toLong` |
| Unsigned.DigitChar | client/src/internal/util/unsigned.ts:29-31 | each digit below 10 maps to the character whose offset from '0' is that digit |
| Unsigned.Decimal | client/src/internal/util/unsigned.ts:29-31 | the decimal text is non-empty and all digits; it has one digit exactly when the value is below 10 |
| Unsigned.DecimalValue | client/src/internal/util/unsigned.ts:29-31 | the decimal text reads back as the number it was written from |
| Unsigned.DecimalInjective | client/src/internal/util/unsigned.ts:29-31 | two numbers with the same decimal text are equal |
| Unsigned.IntText | runtime/src/internal/internal-model-types.ts:242 | an integer's text is non-empty and starts with '-' exactly when the integer is negative |
| Unsigned.IntTextInjective | runtime/src/internal/internal-model-types.ts:242 | two integers with the same text are equal |
| Unsigned.TrimStart | client/src/internal/util/unsigned.ts:7 | `BigInt` first drops leading white space and line terminators: what is left is a suffix that does not start with one, after only white space |
| Unsigned.TrimEnd | client/src/internal/util/unsigned.ts:7 | trailing white space is dropped the same way: a prefix that does not end with any, before only white space |
| Unsigned.Trim | client/src/internal/util/unsigned.ts:7 | the trimmed text has white space at neither end |
| Unsigned.TrimStartPadded | client/src/internal/util/unsigned.ts:7 | leading trimming removes exactly the white space in front of a text that does not start with any |
| Unsigned.TrimEndPadded | client/src/internal/util/unsigned.ts:7 | trailing trimming removes exactly the white space after a text that does not end with any |
| Unsigned.TrimPadded | client/src/internal/util/unsigned.ts:7 | trimming a text surrounded by white space gives back the text |
| Unsigned.ParseLiteral | client/src/internal/util/unsigned.ts:7 | a trimmed text is a literal exactly when it is empty, signed decimal digits, or `0x`/`0o`/`0b` with digits of that radix and no sign; the empty text is 0, a decimal literal has its digits' value (leading zeros and '+' changing nothing, '-' negating it), a prefixed literal has its digits' value in that radix, and anything else is a syntax error |
| Unsigned.ParseBigInt | client/src/internal/util/unsigned.ts:7 | `BigInt(text)` is the literal the trimmed text spells, with the value `ParseLiteral` gives it: it succeeds exactly when the trimmed text is such a literal, fails only with a syntax error, and is negative only when the trimmed text starts with '-' |
| Unsigned.PaddedParse | client/src/internal/util/unsigned.ts:7 | white space around a number does not change what it parses to (" 7" is 7) |
| Unsigned.ParseTrimmed | client/src/internal/util/unsigned.ts:7 | a text with white space at neither end is parsed as it stands |
| Unsigned.PrefixedParse | client/src/internal/util/unsigned.ts:7 | `0x`, `0o` and `0b` texts parse to their digits' value in that radix ("0x10" is 16) |
| Unsigned.SignedPrefixRefused | client/src/internal/util/unsigned.ts:7 | a sign before a `0x`, `0o` or `0b` prefix is a syntax error |
| Unsigned.FromString | client/src/internal/util/unsigned.ts:6-13 | the string constructor succeeds only with the parsed value, and fails only on text that does not parse or parses to a negative number |
| Unsigned.StringRoundTrip | client/src/internal/util/unsigned.ts:6-31 | `toString` then the string constructor gives back the same value |
| Unsigned.EqualsIffSameText | client/src/internal/util/unsigned.ts:15-31 | `equals` holds exactly when the two decimal texts are equal |
| Guards.RequiresTruthy | client/src/internal/util/requires.ts:17-21 | `requiresTruthy` fails exactly on a falsy value (undefined, null, false, 0, "") and names the argument |
| Guards.TruthyString | client/src/internal/util/requires.ts:17-21 | on a string, `requiresTruthy` fails exactly on the empty string |
| Guards.TruthyNumber | client/src/internal/util/requires.ts:17-21 | on a number, `requiresTruthy` fails exactly on zero |
| Guards.RequiresPositiveUnsigned | client/src/internal/util/requires.ts:4-8 | fails exactly on a missing value or zero |
| Guards.RequiresNumericPositive | client/src/internal/util/requires.ts:10-15 | passes exactly on a number that is not negative, zero included; a non-number and a negative number give their own errors |
| Guards.RequiresAtLeastOne | client/src/internal/util/requires.ts:23-26 | fails exactly on a missing or empty array |
| Codes.GetCodeName | client/src/internal/code.ts:58-166 | a number outside the enumeration is named `InternalError(<code>)` |
| Codes.InternalErrorName | client/src/internal/code.ts:164-165 | the fallback name starts with `InternalError(` |
| Codes.DefinedNameRoundTrip | client/src/internal/code.ts:3-166 | every member's name leads back to its numeric code: the switch matches the enumeration |
| Codes.CodeNameNonEmpty | client/src/internal/code.ts:58-166 | every number has a non-empty name |
| Codes.DefinedNamesDistinct | client/src/internal/code.ts:3-166 | distinct members have distinct names |
| Codes.UndefinedNamesDistinct | client/src/internal/code.ts:164-165 | distinct numbers outside the enumeration have distinct names |
| Keys.NewWarpKey | runtime/src/internal/internal-model-types.ts:215-219 | a warp key exists exactly when its id and version are present and positive, and it holds them |
| Keys.NewClassKey | runtime/src/internal/internal-model-types.ts:239-243 | a class key exists exactly when its class id is truthy (not 0), and it holds the warp key and id |
| Keys.NewDataKey | runtime/src/internal/internal-model-types.ts:311-315 | a data key exists exactly when its primary key is non-empty |
| Keys.NewServiceKey | runtime/src/internal/internal-model-types.ts:335-339 | a service key exists exactly when its primary key is non-empty |
| Keys.SourceReferenceKind | runtime/src/internal/internal-model-types.ts:382-387 | the source reference is a data reference exactly when the message's source is a data key |
| Keys.ClassKeyValueSpelled | runtime/src/internal/internal-model-types.ts:242 | a class key's value is its type name, its warp key's value and its class id, separated by '-' |
| Keys.DataKeyValueSpelled | runtime/src/internal/internal-model-types.ts:314 | a data key's value is `DataKey-`, its class key's value, '-', the primary key |
| Keys.ServiceKeyValueSpelled | runtime/src/internal/internal-model-types.ts:338 | a service key's value is `ServiceKey-`, its class key's value, '-', the primary key |
| Keys.SourceKeyValueSpelled | runtime/src/internal/internal-model-types.ts:356 | a message source's value is the value of the data or service key it wraps |
| Keys.MessageInstanceKeyValueSpelled | runtime/src/internal/internal-model-types.ts:365 | a message instance key's value is `MessageInstanceKey-`, its class key's value, '-', the source key's value |
| Keys.WarpTailInjective | runtime/src/internal/internal-model-types.ts:218 | the id, '@', the version and '-' can be read back from the head of a text |
| Keys.IntTailInjective | runtime/src/internal/internal-model-types.ts:242 | a class id and '-' can be read back from the head of a text |
| Keys.DecimalTailInjective | runtime/src/internal/internal-model-types.ts:218 | decimal digits and '-' can be read back from the head of a text |
| Keys.ClassTailInjective | runtime/src/internal/internal-model-types.ts:242 | a class key's components and '-' can be read back from the head of a text |
| Keys.WarpKeyValueInjective | runtime/src/internal/internal-model-types.ts:218 | two warp keys with the same value are the same key |
| Keys.ClassKeyValueInjective | runtime/src/internal/internal-model-types.ts:242 | two class keys of one kind with the same value are the same key |
| Keys.DataKeyValueInjective | runtime/src/internal/internal-model-types.ts:314 | two data keys with the same value are the same key |
| Keys.ServiceKeyValueInjective | runtime/src/internal/internal-model-types.ts:338 | two service keys with the same value are the same key |
| Keys.SourceKeyValueHead | runtime/src/internal/internal-model-types.ts:314-338 | a data source's value starts with 'D' and a service source's with 'S' |
| Keys.SourceKeyValueInjective | runtime/src/internal/internal-model-types.ts:356-365 | two message sources with the same value are the same source |
| Keys.MessageInstanceKeyValueInjective | runtime/src/internal/internal-model-types.ts:365 | two message instance keys with the same value are the same key |
| Keys.WarpKeyEquals | runtime/src/internal/internal-model-types.ts:221-225 | comparing values is false for a missing key and otherwise holds exactly when the keys are equal |
| Keys.ClassKeyEquals | runtime/src/internal/internal-model-types.ts:245-249 | as for warp keys, for the three class-key types |
| Keys.DataKeyEquals | runtime/src/internal/internal-model-types.ts:317-321 | as for warp keys, for data keys |
| Keys.ServiceKeyEquals | runtime/src/internal/internal-model-types.ts:341-345 | as for warp keys, for service keys |
| Keys.MessageInstanceKeyEquals | runtime/src/internal/internal-model-types.ts:368-372 | as for warp keys, for message instance keys |
| KeyCollections.KeySet.Size | runtime/src/internal/internal-model-types.ts:68-70 | the size is zero exactly when the set is empty |
| KeyCollections.KeySet.Add | runtime/src/internal/internal-model-types.ts:77-84 | `add` returns true exactly when the key was absent, and the key is present afterwards |
| KeyCollections.KeySet.Delete | runtime/src/internal/internal-model-types.ts:86-89 | removes exactly that key |
| KeyCollections.KeySet.Clear | runtime/src/internal/internal-model-types.ts:91-93 | empties the set |
| KeyCollections.KeyMap.TryGet | runtime/src/internal/internal-model-types.ts:122-125 | `tryGet` returns a value exactly when the key is present, and it is the stored value |
| KeyCollections.KeyMap.Get | runtime/src/internal/internal-model-types.ts:112-120 | `get` fails exactly when the key is absent or its value is falsy; otherwise it returns the stored value |
| KeyCollections.KeyMap.TrySet | runtime/src/internal/internal-model-types.ts:132-139 | `trySet` writes and returns true exactly when the key was absent, and otherwise leaves the map as it was |
| KeyCollections.KeyMap.Set | runtime/src/internal/internal-model-types.ts:141-144 | `set` always overwrites the key's value |
| KeyCollections.KeyMap.Delete | runtime/src/internal/internal-model-types.ts:146-149 | removes exactly that key |
| KeyCollections.KeyMap.Clear | runtime/src/internal/internal-model-types.ts:151-153 | empties the map |
| KeyCollections.DataMap.TryGet | runtime/src/internal/internal-model-types.ts:187-190 | returns a value exactly when that object is present, and it is the stored value |
| KeyCollections.DataMap.Get | runtime/src/internal/internal-model-types.ts:175-181 | fails exactly when the object is absent or its value is falsy |
| KeyCollections.DataMap.Set | runtime/src/internal/internal-model-types.ts:197-200 | overwrites the object's value |
| KeyCollections.DataMap.Delete | runtime/src/internal/internal-model-types.ts:202-205 | removes exactly that object |
| KeyCollections.DataMap.Clear | runtime/src/internal/internal-model-types.ts:168-170 | empties the map |
| JsHeap.Lookup | runtime/src/internal/util/serde.ts:620-643 | a property read finds a value exactly when the object has a property of that name |
| JsHeap.SetProp | runtime/src/internal/util/serde.ts:848-855 | after `target[name] = v` the property reads `v` and every other property reads as before |
| JsHeap.SetPropNames | runtime/src/internal/util/serde.ts:848-855 | assignment keeps an existing property in its place and appends a new one, so property order is insertion order |
| JsHeap.RemoveProp | runtime/src/internal/util/serde.ts:858-863 | after `delete target[name]` the property is gone and every other property reads as before |
| JsHeap.AssignIndex | runtime/src/internal/util/serde.ts:721-729 | `array[index] = v` stores `v` at the index, keeps every other element and fills any gap with holes |
| JsHeap.MapLookup | runtime/src/internal/util/serde.ts:754-801 | a map lookup finds a value exactly when some entry has that key |
| JsHeap.MapSet | runtime/src/internal/util/serde.ts:785-798 | `map.set(k, v)` makes `k` read `v`, keeps every other key, and grows the map only for a new key |
| JsHeap.SetAdd | runtime/src/internal/util/serde.ts:816-821 | `set.add(v)` adds `v` once: the members afterwards are the old ones and `v` |
| JsHeap.Affect | runtime/src/internal/util/serde.ts:848-851 | a resolution callback's effect writes the resolved value into the property or cell it was registered for, and never changes a Data object's class or primary key |
| JsHeap.Performed | runtime/src/internal/util/tracker.ts:137-149 | a callback changes only the one object it closes over |
| JsHeap.Cleared | runtime/src/internal/util/serde.ts:955-959 | deleting every own property empties the Data object and leaves its class, primary key and every other object alone |
| JsHeap.PropDeleted | runtime/src/internal/util/serde.ts:858-863 | deleting one property changes only that object's property list |
| JsHeap.Heap.Alloc | runtime/src/internal/util/serde.ts:663-703 | a new object is appended; every existing object is unchanged |
| JsHeap.Heap.Perform | runtime/src/internal/util/tracker.ts:137-149 | a callback's effect is applied to its one object, as `Performed` says |
| JsHeap.Heap.ClearProps | runtime/src/internal/util/serde.ts:955-959 | the object's own properties are deleted, as `Cleared` says |
| JsHeap.Heap.DeleteProp | runtime/src/internal/util/serde.ts:858-863 | one property is deleted, as `PropDeleted` says |
| JsHeap.Heap.Fire | runtime/src/internal/util/tracker.ts:26 | one listener call is appended to the trace and no object changes |
| JsHeap.Heap.FireAll | runtime/src/internal/util/tracker.ts:25-29 | listener calls are appended in order, each after the previous one finished |
| Registry.NewWarpRegistration | runtime/src/internal/internal-model-types.ts:390-398 | a warp registration exists exactly when its name and user key are non-empty, and a refusal names the first empty one |
| Registry.NewDataClassRegistration | runtime/src/internal/internal-model-types.ts:400-409 | a data class registration exists exactly when its name is non-empty |
| Registry.NewServiceClassRegistration | runtime/src/internal/internal-model-types.ts:411-420 | a service class registration exists exactly when its name is non-empty |
| Registry.NewMessageClassRegistration | runtime/src/internal/internal-model-types.ts:422-431 | a message class registration exists exactly when its name is non-empty |
| Registry.IndexOf | client/src/internal/util/registry.ts:181 | `indexOf` is the first position holding the listener, or -1 exactly when it is absent |
| Registry.RemoveFirst | client/src/internal/util/registry.ts:181-184 | `splice(indexOf(x), 1)` removes exactly the first occurrence, and nothing when there is none |
| Registry.AddThenRemove | client/src/internal/util/registry.ts:165-185 | adding a listener that was absent and then removing it restores the list |
| Registry.WarpRegistry.Register | client/src/internal/util/registry.ts:79-89 | registration succeeds exactly when neither the key nor another version of its warp id is registered, each refusal has its own error and changes nothing, and afterwards the id leads to the key |
| Registry.WarpRegistry.OneVersionPerWarpId | client/src/internal/util/registry.ts:84-88 | two registered keys with the same warp id are the same key |
| Registry.WarpRegistry.SetRiverClient | client/src/internal/util/registry.ts:54-59 | a river client is stored only for a registered warp; otherwise the call fails and nothing changes |
| Registry.WarpRegistry.TryGetRiverClient | client/src/internal/util/registry.ts:61-65 | fails for an unregistered warp, and otherwise returns the stored client if there is one |
| Registry.WarpRegistry.ClearRiverClients | client/src/internal/util/registry.ts:67-72 | every stored client is handed over to be shut down and none is kept |
| Registry.WarpRegistry.GetUserKey | client/src/internal/util/registry.ts:95-98 | returns the registered user key exactly when the warp is registered |
| Registry.WarpRegistry.GetName | client/src/internal/util/registry.ts:100-103 | returns the registered name exactly when the warp is registered |
| Registry.WarpRegistry.TryGetWarpKeyByWarpId | client/src/internal/util/registry.ts:105-108 | finds a key exactly when that warp id was registered, and the key found is registered with that id |
| Registry.DataRegistry.TryGetVersion | client/src/internal/util/registry.ts:126-128 | there is a version exactly when one was set, and it is the one set |
| Registry.DataRegistry.SetVersion | client/src/internal/util/registry.ts:130-134 | a positive version is stored and zero is refused; nothing else changes |
| Registry.DataRegistry.TryGetInstance | client/src/internal/util/registry.ts:154-163 | an instance is found exactly when its weak reference is present and alive, and the object found maps back to the same key |
| Registry.DataRegistry.GetDataKey | client/src/internal/util/registry.ts:147-152 | returns the key the object was installed under, and fails for an object never installed |
| Registry.DataRegistry.SetInstance | client/src/internal/util/registry.ts:136-145 | refused while a live instance holds the key; otherwise the key and the object lead to each other, and the registry stays consistent |
| Registry.DataRegistry.Collect | client/src/internal/util/registry.ts:22-39 | when the collector reclaims an object, its weak entries vanish and the key has no instance |
| Registry.DataRegistry.AddUpdatedListener | client/src/internal/util/registry.ts:165-173 | appends the listener, creating the list when absent |
| Registry.DataRegistry.RemoveUpdatedListener | client/src/internal/util/registry.ts:175-185 | removes the first occurrence only; a missing list or listener changes nothing |
| Registry.DataRegistry.TryGetUpdatedListeners | client/src/internal/util/registry.ts:187-189 | returns the object's listener list exactly when it has one |
| Registry.DataRegistry.ClearUpdatedListeners | client/src/internal/util/registry.ts:191-194 | drops that object's listener list only |
| Registry.DataRegistry.ClearAllUpdateListeners | client/src/internal/util/registry.ts:196-198 | drops every listener list |
| Registry.DataRegistry.Remove | client/src/internal/util/registry.ts:200-213 | the key loses its entry either way, a live instance also loses its version, key and listeners, and the registry stays consistent |
| Registry.DataRegistry.Register | client/src/internal/util/registry.ts:215-221 | a class key can be registered once; afterwards its constructor leads to it |
| Registry.DataRegistry.GetClassKey | client/src/internal/util/registry.ts:223-228 | fails exactly for a constructor never registered; the key found leads back to the constructor |
| Registry.DataRegistry.GetDataRegistration | client/src/internal/util/registry.ts:230-232 | the registration is the key map's `get` of the class key's value |
| Registry.DataRegistry.GetCtor | client/src/internal/util/registry.ts:234-237 | the registered class's constructor; an unregistered class fails |
| Registry.DataRegistry.GetName | client/src/internal/util/registry.ts:239-241 | the registered class's name; an unregistered class fails |
| Registry.ServiceRegistry.Register | client/src/internal/util/registry.ts:255-261 | a class key can be registered once; afterwards its constructor is registered and leads to it |
| Registry.ServiceRegistry.GetClassKey | client/src/internal/util/registry.ts:267-272 | fails exactly for a constructor never registered; the key found leads back to the constructor |
| Registry.ServiceRegistry.GetRegistration | client/src/internal/util/registry.ts:274-276 | the registration is the key map's `get` of the class key's value |
| Registry.ServiceRegistry.GetCtor | client/src/internal/util/registry.ts:278-281 | the registered class's constructor; an unregistered class fails |
| Registry.ServiceRegistry.GetName | client/src/internal/util/registry.ts:288-290 | the registered class's name; an unregistered class fails |
| Registry.ServiceRegistry.CreateInstance | client/src/internal/util/registry.ts:283-286 | builds a new service object of the registered class with the key's primary key, and fails without allocating for an unregistered class or an empty key |
| Registry.MessageRegistry.AddListener | client/src/internal/util/registry.ts:306-314 | appends the listener to the instance key's list, creating it when absent |
| Registry.MessageRegistry.RemoveListener | client/src/internal/util/registry.ts:316-326 | removes the first occurrence only; a missing list or listener changes nothing |
| Registry.MessageRegistry.TryGetListeners | client/src/internal/util/registry.ts:328-330 | returns the instance key's listener list exactly when it has one |
| Registry.MessageRegistry.ClearListeners | client/src/internal/util/registry.ts:332-335 | drops that instance key's list only |
| Registry.MessageRegistry.ClearAllListeners | client/src/internal/util/registry.ts:337-339 | drops every list |
| Registry.MessageRegistry.Register | client/src/internal/util/registry.ts:341-347 | a class key can be registered once; afterwards its constructor is registered and leads to it |
| Registry.MessageRegistry.GetClassKey | client/src/internal/util/registry.ts:353-359 | fails exactly for a constructor never registered; the key found leads back to the constructor |
| Registry.MessageRegistry.GetRegistration | client/src/internal/util/registry.ts:361-363 | the registration is the key map's `get` of the class key's value |
| Registry.MessageRegistry.GetCtor | client/src/internal/util/registry.ts:365-368 | the registered class's constructor; an unregistered class fails |
| Registry.MessageRegistry.GetName | client/src/internal/util/registry.ts:370-372 | the registered class's name; an unregistered class fails |
| Responses.NewPlatformException | runtime/src/internal/internal-model-types.ts:442-448 | a platform exception exists exactly when its code is not 0 and its name is non-empty |
| Responses.NewScriptException | runtime/src/internal/internal-model-types.ts:450-456 | a script exception exists exactly when its stack and message are non-empty |
| Responses.CreateOk | runtime/src/internal/internal-model-types.ts:466-468 | an OK response sets only the response, with the messages and log it was given |
| Responses.CreateScriptException | runtime/src/internal/internal-model-types.ts:470-472 | a script-exception response sets only the exception and carries no messages |
| Responses.CreatePlatformException | runtime/src/internal/internal-model-types.ts:474-476 | a platform-exception response sets only the platform exception and carries no messages |
| Responses.OrEmpty | runtime/src/internal/util/serde.ts:569-570 | a missing stack or message reads as the non-empty text `<empty>`; a present one is kept |
| Responses.Unwrapped | runtime/src/internal/util/serde.ts:584-597 | the bundled messages are kept one for one, in order |
| Responses.ReadResponse | runtime/src/internal/util/serde.ts:516-603 | each refusal of `readResponse` (no response, empty bytes, NONE, wrong type, unexpected messages) has its own error; an error code becomes a platform exception named by the code table, and only code 0 is refused; an exception always reads, with `<empty>` for missing text; an OK body of the expected type is accepted with its messages exactly when messages are allowed or there are none |
| Responses.GetErrorForNotOkResponse | runtime/src/internal/util/serde.ts:1085-1093 | a platform exception becomes a platform error named by its code string, a script exception becomes a script error, and only a response with neither gives the "non-error and non-OK" error |
| Responses.ReadNotOkCarriesError | runtime/src/internal/util/serde.ts:516-603 | every response `readResponse` accepts is either OK or carries an error, so the "non-error and non-OK" case never arises from a read |
| Responses.ErrorCodeBecomesPlatformError | runtime/src/internal/util/serde.ts:558-564 | a non-zero error code read from a reply becomes the platform error named by `getCodeName` |
| Tracking.Resolved | runtime/src/internal/util/tracker.ts:133-138 | a callback receives a reference to the instance found, or null when there is none |
| Tracking.Invoked | runtime/src/internal/util/tracker.ts:137-149 | a resolution callback changes at most the one object it closes over, with the first resolved value, or with a key and a value for a map entry; a discarded callback changes nothing |
| Tracking.Deliveries | runtime/src/internal/util/tracker.ts:78-83 | a queued message goes to each of its listeners once, in registration order |
| Tracking.MessageTraceStep | runtime/src/internal/util/tracker.ts:74-86 | firing one more queued message appends exactly that message's calls |
| Tracking.MessageTraceSingle | runtime/src/internal/util/tracker.ts:74-86 | a queue of one message makes exactly that message's calls |
| Tracking.MessageTraceAppend | runtime/src/internal/util/tracker.ts:72-88 | firing two queues in turn makes the same calls as firing them as one queue |
| Tracking.MessageTraceSources | runtime/src/internal/util/tracker.ts:72-88 | every listener call hands a queued message to a listener registered for that message's instance key |
| Tracking.Notifications | runtime/src/internal/util/tracker.ts:25-29 | a queued update goes to each listener of its object once, in registration order |
| Tracking.UpdateCalls | runtime/src/internal/util/tracker.ts:22-31 | an object without a listener list makes no calls |
| Tracking.UpdateTraceAppend | runtime/src/internal/util/tracker.ts:20-34 | firing two update queues in turn makes the same calls as firing them as one queue |
| Tracking.UpdateTraceNext | runtime/src/internal/util/tracker.ts:21-32 | firing one more queued update appends exactly that update's calls |
| Tracking.UpdateTraceSources | runtime/src/internal/util/tracker.ts:20-34 | a listener learns only of its own object, with the deleted flag the update was queued with |
| Tracking.FiredCount | runtime/src/internal/util/tracker.ts:21-32 | the updates that fire are exactly those before the first one whose object has listeners but no key |
| Tracking.ListenedKnownFiresAll | runtime/src/internal/util/tracker.ts:21-32 | when the registry knows every listened object, the whole update queue fires |
| Tracking.KeyValues | runtime/src/internal/util/tracker.ts:51-54 | the value strings of the queued delete keys, each coming from some key |
| Tracking.Tracker.Enqueue | runtime/src/internal/util/tracker.ts:122-124 | `enqueue` appends one single-key resolution item and touches no other queue |
| Tracking.Tracker.EnqueueMultiple | runtime/src/internal/util/tracker.ts:100-104 | `enqueueMultiple` appends one item exactly when there is at least one key, and otherwise fails and changes nothing |
| Tracking.Tracker.EnqueueMessage | runtime/src/internal/util/tracker.ts:66-70 | appends one message entry and touches no other queue |
| Tracking.Tracker.EnqueueUpdate | runtime/src/internal/util/tracker.ts:15-18 | appends one update entry and touches no other queue |
| Tracking.Tracker.EnqueueDelete | runtime/src/internal/util/tracker.ts:44-47 | appends one key to the delete queue and touches no other queue |
| Tracking.Tracker.TakeResolutions | runtime/src/internal/util/tracker.ts:129-130 | a resolution round takes the queue as it stands and leaves it empty |
| Tracking.Tracker.FireMessages | runtime/src/internal/util/tracker.ts:72-88 | the calls made are exactly `MessageTrace` of the queue, no object changes, and the queue is empty afterwards |
| Tracking.Tracker.FireEvent | runtime/src/internal/util/tracker.ts:75-85 | one queued message makes exactly its listeners' calls |
| Tracking.Tracker.FireUpdates | runtime/src/internal/util/tracker.ts:20-34 | the updates before the first unknown listened object fire in order; the call succeeds, and empties the queue, exactly when all of them fire |
| Tracking.Tracker.FireQueue | runtime/src/internal/util/tracker.ts:21-32 | the loop makes exactly the calls of the updates that fire, and fails exactly at an unknown listened object |
| Tracking.Tracker.FireUpdate | runtime/src/internal/util/tracker.ts:22-31 | one update fails, making no calls, exactly when its object has listeners but no key; otherwise it makes exactly its listeners' calls |
| Tracking.Tracker.ApplyDeletes | runtime/src/internal/util/tracker.ts:49-56 | every queued key is removed from the registry and then has no instance, no other key changes, the registry stays consistent, and the queue is empty |
| ModelTypes.PrimaryKey | runtime/src/public/model-types.ts:14-16 | the `primaryKey` getter of a Data or Service object returns the key it was built with |
| ModelTypes.NewData | runtime/src/public/model-types.ts:30-34 | `new C(primaryKey)` refuses an empty key, an unregistered class and a second live instance of the same key, each with its own error and without allocating; otherwise the new object is installed under its key, and the heap and registry stay coherent |
| ModelTypes.NewService | runtime/src/public/model-types.ts:9-12 | `new S(primaryKey)` succeeds exactly on a non-empty key and builds a service object carrying it |
| ModelTypes.CreateDataInstance | runtime/src/internal/internal-model-types.ts:42-55 | builds an empty Data object of the registered class carrying the key's primary key without installing it, and fails with the registry's error for an unregistered class |
| ModelTypes.CreateMessageInstance | runtime/src/internal/internal-model-types.ts:30-40 | builds an empty message object of the registered class, and fails for an unregistered class |
| Codec.GetValueType | runtime/src/internal/util/serde.ts:78-121 | functions, symbols and big integers are refused, and a Message is refused with its own error; a Data object is tagged a data reference, a Service a service reference, a string or String a string, a plain object an object, and exactly the boxed primitives unwrap |
| Codec.ObjectTypeTag | runtime/src/internal/util/serde.ts:95-117 | every object the type test accepts gets the tag it is written with |
| Codec.TransferAdd | runtime/src/internal/util/serde.ts:148-163 | `tryAdd` ignores a key seen before; a new key joins the queue and fixes the warp; an object of another warp fails |
| Codec.TransferAddKeepsInv | runtime/src/internal/util/serde.ts:148-163 | `tryAdd` keeps the queue's invariant: each object is queued once, its key recorded, and all queued objects share one warp |
| Codec.Filled | runtime/src/internal/util/serde.ts:207 | iterating an array reads each hole as undefined |
| Codec.Indexed | runtime/src/internal/util/serde.ts:206-212 | array items carry the consecutive indices 0 .. n-1 |
| Codec.PropValues | runtime/src/internal/util/serde.ts:192-194 | an object's property values are read in property order |
| Codec.Named | runtime/src/internal/util/serde.ts:192-200 | each encoded property keeps its name, in order |
| Codec.Flattened | runtime/src/internal/util/serde.ts:235-237 | map entries are encoded key first, then value, in insertion order |
| Codec.Paired | runtime/src/internal/util/serde.ts:235-242 | encoded keys and values pair back into one item per entry |
| Codec.SerializeValue | runtime/src/internal/util/serde.ts:166-262 | a value the type test refuses gives the type test's error, and every value written carries the tag the type test chose |
| Codec.SerializeObject | runtime/src/internal/util/serde.ts:175-231 | an accepted object is written with its own tag |
| Codec.SerializeContainer | runtime/src/internal/util/serde.ts:190-254 | a plain object, array, map or set is written with its own tag |
| Codec.SerializeList | runtime/src/internal/util/serde.ts:191-253 | a list of values encodes to one value each |
| Codec.SerializeListStep | runtime/src/internal/util/serde.ts:191-253 | encoding one more element extends the encoding of the prefix, the queue threaded through in order |
| Codec.SerializeKeepsInv | runtime/src/internal/util/serde.ts:166-262 | encoding never drops a queued object or key, keeps the queue's warp and invariant, and records the key of every Data object it meets |
| Codec.SerializeObjectKeepsInv | runtime/src/internal/util/serde.ts:175-231 | the same for one accepted object |
| Codec.SerializeContainerKeepsInv | runtime/src/internal/util/serde.ts:190-254 | the same for one container |
| Codec.SerializeListKeepsInv | runtime/src/internal/util/serde.ts:191-253 | the same for a list, and every Data object in the list has its key recorded |
| Codec.ServiceNeverQueued | runtime/src/internal/util/serde.ts:225-231 | a Service is written as its class id and primary key and never queued |
| Codec.ArrayIndicesConsecutive | runtime/src/internal/util/serde.ts:204-216 | an array is written with one item per element and indices 0 .. n-1 |
| Codec.VersionOf | runtime/src/internal/util/serde.ts:270-273 | an object without a version is sent with version 0 |
| Codec.CreateInboundDataDelta | runtime/src/internal/util/serde.ts:264-296 | an object that is not a registered Data object fails, and a property value that does not serialise fails with its error; otherwise the delta carries the class id, the registry's version (0 when none), the primary key and one property per own property, in order, under its name and with its value as serialised with the same queue, and never a deleted property |
| Codec.CreateInboundDataDeltaKeepsInv | runtime/src/internal/util/serde.ts:277-290 | building a delta keeps the transfer queue's invariant and warp |
| Requests.DistinctBelow | runtime/src/internal/util/serde.ts:343-345 | distinct handles below n number at most n, which bounds the drain |
| Requests.InvBound | runtime/src/internal/util/serde.ts:343-345 | everything the transfer queue has ever held fits in the heap, because the queued objects carry distinct keys |
| Requests.TransferQueue.Pop | runtime/src/internal/util/serde.ts:141-146 | `pop` returns the oldest object and removes it, and an empty queue fails with "no items found" |
| Requests.TransferQueue.TryAdd | runtime/src/internal/util/serde.ts:148-163 | `tryAdd` moves the queue exactly as `TransferAdd` says; an object of another warp still leaves its key behind, because the key is added before the warp is checked |
| Requests.TransferQueue.Serialize | runtime/src/internal/util/serde.ts:166-262 | encoding with the queue gives `SerializeValue`'s value and leaves the queue in the state it computes |
| Requests.TransferQueue.InboundDelta | runtime/src/internal/util/serde.ts:264-296 | building a delta with the queue gives `CreateInboundDataDelta`'s delta and queue state |
| Requests.TransferQueue.DrainDeltas | runtime/src/internal/util/serde.ts:342-345 | the drain loop gives exactly the deltas, final queue and popped objects of `Drain` |
| Requests.Drain | runtime/src/internal/util/serde.ts:342-345 | a finished drain leaves the queue empty and has popped one object per delta |
| Requests.DrainStep | runtime/src/internal/util/serde.ts:343-344 | one drain step pops the oldest object and builds its delta, keeping the queue's invariant |
| Requests.Then | runtime/src/internal/util/serde.ts:342-345 | deltas already built come before the rest of the drain's deltas, and a failure of the rest is the failure |
| Requests.DrainCovers | runtime/src/internal/util/serde.ts:342-345 | every finished drain sends, in pop order, the delta of each object popped, keeps every key seen and the warp |
| Requests.CoversNext | runtime/src/internal/util/serde.ts:343-344 | the delta of the object just popped followed by what the rest of the drain covers is covered |
| Requests.DrainedAll | runtime/src/internal/util/serde.ts:342-345 | draining from nothing popped sends every object the queue ever held, once each with its own delta, all of one warp, and every key the queue had seen is among them |
| Requests.RequestFault | runtime/src/internal/util/serde.ts:300-303 | `createRequest` checks, in order, a non-empty log context, a positive warp id and a positive warp version, each with its own error |
| Requests.CreateRequest | runtime/src/internal/util/serde.ts:300-318 | the request exists exactly when the checks pass; it carries the log context and body, and the warp id and version as longs that read back as the same numbers below 2^64 |
| Requests.CallServiceMethodSpec | runtime/src/internal/util/serde.ts:328-356 | a zero method id is refused, then the envelope is checked; the body names the service's class id, primary key and method id, the arguments are encoded in order with a queue bound to the service's warp, and the referenced deltas are that queue's drain |
| Requests.CallServiceMethodSendsEachObjectOnce | runtime/src/internal/util/serde.ts:328-356 | a call carries exactly one delta per Data object reachable from its arguments, with distinct keys, all of the service's warp, each with the registry's version, and every Data argument is among them |
| Requests.SerializeListPrefixErr | runtime/src/internal/util/serde.ts:338-340 | an argument that fails to encode fails the whole list the same way |
| Requests.CreateCallServiceMethodRequest | runtime/src/internal/util/serde.ts:328-356 | the loops compute exactly `CallServiceMethodSpec` |
| Requests.AddAll | runtime/src/internal/util/serde.ts:373-375 | offering every object succeeds only when each one is registered and keyed |
| Requests.AddAllPrefixErr | runtime/src/internal/util/serde.ts:373-375 | an object the queue refuses fails the whole save the same way |
| Requests.AddAllKeepsInv | runtime/src/internal/util/serde.ts:373-375 | offering objects keeps the queue's invariant and records every offered key |
| Requests.AddAllLast | runtime/src/internal/util/serde.ts:373-375 | the last object is offered to the queue the others left |
| Requests.InvQueueNonEmpty | runtime/src/internal/util/serde.ts:380-382 | a queue that has recorded an object's key has sent it or still holds it |
| Requests.SaveDataSpec | runtime/src/internal/util/serde.ts:367-391 | an empty list is refused; every object is offered to an unbound queue, the queue is drained, and the request is addressed to the warp the queue took, with its deltas |
| Requests.SaveDataNeverPopsEmpty | runtime/src/internal/util/serde.ts:380-382 | offering a non-empty list always queues something, so the first pop of the do-while never fails |
| Requests.SaveDataSendsEachObjectOnce | runtime/src/internal/util/serde.ts:367-391 | a save carries one delta per object offered or reachable from them, each once, all of the warp that addresses the request, and every offered object is among them |
| Requests.CreateSaveDataRequest | runtime/src/internal/util/serde.ts:367-391 | the loops compute exactly `SaveDataSpec` |
| Requests.CreateGetDataRequest | runtime/src/internal/util/serde.ts:358-365 | the request exists exactly when the envelope checks pass, and carries the key's class id and primary key |
| Requests.SourceReferenceOf | runtime/src/internal/util/serde.ts:398-415 | a message source is sent as a data reference exactly when it is a data key, with the source's class id and primary key |
| Requests.CreateMessageSubscriptionRequest | runtime/src/internal/util/serde.ts:393-443 | subscribe and unsubscribe requests differ only in body kind; each carries the message class id and the source reference, addressed to the message class's warp |
| Requests.DataUpdatesSpec | runtime/src/internal/util/serde.ts:445-509 | no keys and keys of several warps are refused with their own errors; otherwise one reference per key, in order, addressed to the first key's warp |
| Requests.CreateDataUpdatesRequest | runtime/src/internal/util/serde.ts:445-509 | the loop computes exactly `DataUpdatesSpec` |
| Requests.NormalizeArrayArg | runtime/src/internal/util/serde.ts:1009-1015 | an array stays as it is and a single value becomes a one-element array |
| Requests.Collect | runtime/src/internal/util/serde.ts:1057-1073 | the loop yields one key per object |
| Requests.CollectPrefixErr | runtime/src/internal/util/serde.ts:1057-1073 | a refused object fails the whole call the same way |
| Requests.CollectNext | runtime/src/internal/util/serde.ts:1057-1073 | the loop over one more object takes one more step |
| Requests.DataAndKeys | runtime/src/internal/util/serde.ts:1048-1079 | on success the objects are the normalised argument, with one key each |
| Requests.CollectSound | runtime/src/internal/util/serde.ts:1057-1073 | the loop succeeds only on registered, keyed, distinct objects of one warp, and yields their keys in order and the first object's warp |
| Requests.CollectComplete | runtime/src/internal/util/serde.ts:1057-1073 | such objects always pass the loop |
| Requests.DataAndKeysMeaning | runtime/src/internal/util/serde.ts:1048-1079 | `getDataAndKeys` succeeds exactly on a non-empty list of registered, keyed, distinct objects of one warp, and returns each object's key in order and the first object's warp |
| Requests.GetDataAndKeys | runtime/src/internal/util/serde.ts:1048-1079 | the loop computes exactly `DataAndKeys` |
| Requests.GetDataAndKeyMap | runtime/src/internal/util/serde.ts:1017-1046 | `getDataAndKeyMap` succeeds and fails exactly as `getDataAndKeys`, and maps each key to its own object |
| Decoding.EmptyOf | runtime/src/internal/util/serde.ts:663-831 | an object, array, map or set value is read into an empty container of the same kind |
| Decoding.ItemsOf | runtime/src/internal/util/serde.ts:666-823 | a container's items are read one for one, in wire order |
| Decoding.KeepsDataTrans | runtime/src/internal/util/serde.ts:645-833 | decode steps compose: no object disappears and Data objects keep their class and key across several steps |
| Decoding.ExtendsTrans | runtime/src/internal/util/serde.ts:645-833 | decode steps compose: only appends, and only the container being filled changes |
| Decoding.Place | runtime/src/internal/util/serde.ts:684-700 | a plain value is stored in its container at once, and a data reference instead leaves one resolution item that will store the instance |
| Decoding.Decode | runtime/src/internal/util/serde.ts:645-833 | decoding only appends objects and resolutions and changes no earlier object; a data reference reads as its key, in the caller's warp, exactly when its primary key is non-empty and its class id is not 0, allocating nothing |
| Decoding.DecodeItems | runtime/src/internal/util/serde.ts:666-823 | reading a container's items changes at most that container among the earlier objects |
| Decoding.DecodeItem | runtime/src/internal/util/serde.ts:666-823 | a map entry whose key and value are both data references waits for both with a single resolution item; reading one item changes at most its container |
| Decoding.DecodeEntry | runtime/src/internal/util/serde.ts:757-800 | a map entry reads its key, then its value; when both are data references, one two-key resolution item is enqueued and nothing else changes |
| Decoding.Landed | runtime/src/internal/util/serde.ts:684-700 | a decoded value placed into its container extends the state before it was decoded |
| Decoding.PlaceEntry | runtime/src/internal/util/serde.ts:780-799 | a key and value that both need resolving leave one two-key resolution item |
| Decoding.ExtendsWiden | runtime/src/internal/util/serde.ts:645-833 | a step that touches no earlier object also touches none but the container |
| Decoding.DecodeItemsPrefixErr | runtime/src/internal/util/serde.ts:666-823 | an item that fails fails the whole container the same way |
| Decoding.DeserializeValue | runtime/src/internal/util/serde.ts:645-833 | `deserializeValue` on the heap and tracker computes exactly `Decode`, keeps every Data object's class and key, and calls no listener |
| Decoding.DeserializeReference | runtime/src/internal/util/serde.ts:733-753 | a data reference becomes its key, and a service reference a fresh object of its registered class, exactly as `Decode` says |
| Decoding.DeserializeItems | runtime/src/internal/util/serde.ts:666-823 | the container loops compute exactly `DecodeItems` |
| Decoding.DeserializeNext | runtime/src/internal/util/serde.ts:666-823 | item i is read after the items before it, and a failure there is the whole loop's failure |
| Decoding.PlaceInto | runtime/src/internal/util/serde.ts:684-700 | the store or enqueue computes exactly `Place` |
| Decoding.DeserializeItem | runtime/src/internal/util/serde.ts:666-823 | the loop body computes exactly `DecodeItem` |
| Decoding.DeserializeEntry | runtime/src/internal/util/serde.ts:757-800 | the map-entry body computes exactly `DecodeEntry` |
| Decoding.PrimitiveValue | runtime/src/internal/util/serde.ts:169-189 | every primitive is written as some union member |
| Decoding.Encoded | runtime/src/internal/util/serde.ts:169-189 | primitives are written one for one, in order |
| Decoding.Slots | runtime/src/internal/util/serde.ts:721-729 | values read back into an array fill its slots in order |
| Decoding.SerializePrimitives | runtime/src/internal/util/serde.ts:169-189 | encoding primitives leaves the transfer queue alone |
| Decoding.DecodePrimitive | runtime/src/internal/util/serde.ts:653-662 | a primitive reads back as itself, allocating and enqueueing nothing |
| Decoding.DecodeItemsLast | runtime/src/internal/util/serde.ts:666-823 | the last item is read into the state the others left |
| Decoding.DecodeItemsNext | runtime/src/internal/util/serde.ts:666-823 | reading one more item continues from the state the items before it left |
| Decoding.DecodePrimitiveProperty | runtime/src/internal/util/serde.ts:694-699 | a named property holding a primitive is assigned on the object at once |
| Decoding.Elements | runtime/src/internal/util/serde.ts:206-212 | an encoded array of primitives has one item per element with index i |
| Decoding.DecodeElements | runtime/src/internal/util/serde.ts:704-731 | reading the first n elements into an empty array stores exactly them, in order |
| Decoding.ArrayRoundTrip | runtime/src/internal/util/serde.ts:204-216 | encoding an array of primitives and decoding the result allocates one new array holding the same values, holes read as undefined, and enqueues nothing |
| Decoding.DataReferenceRoundTrip | runtime/src/internal/util/serde.ts:217-224 | a Data object's reference, read back in its own warp, names the same key, and decoding allocates and enqueues nothing |
| Merging.Decide | runtime/src/internal/util/serde.ts:883-915 | a delta deletes exactly when its deleted flag is set, creates exactly when no version is known and it carries version 1, advances exactly when it carries one more than the known version, and is rejected otherwise |
| Merging.Next | runtime/src/internal/util/serde.ts:892-902 | the version an accepted change must carry is at least 1 |
| Merging.AcceptedIffNext | runtime/src/internal/util/serde.ts:892-915 | a change that does not delete is accepted exactly when it carries the next version |
| Merging.ReplayRejected | runtime/src/internal/util/serde.ts:892-915 | a change applied a second time is rejected |
| Merging.Track | runtime/src/internal/util/serde.ts:892-915 | after a run of accepted changes the object holds the last one's version; no change leaves the known version |
| Merging.TrackAcceptsExactlyConsecutive | runtime/src/internal/util/serde.ts:892-915 | a run of changes is accepted in full exactly when its versions count up by one from the next version: any gap, repeat or reordering is rejected |
| Merging.DeltaKey | runtime/src/internal/util/serde.ts:1105-1113 | a delta's key is built exactly when its primary key is non-empty and its class id is not 0, in the warp the delta arrived for, with the error for each case |
| Merging.Known | runtime/src/internal/util/serde.ts:878-881 | the known version is the one the registry holds for the live instance |
| Merging.PropertyItems | runtime/src/internal/util/serde.ts:844-856 | a delta's properties are read one for one, in order |
| Merging.DeletedAll | runtime/src/internal/util/serde.ts:858-863 | deleting names changes only the target, which keeps its class and key |
| Merging.MergedProps | runtime/src/internal/util/serde.ts:835-863 | an empty log context fails; a merge keeps every Data object's class and key and only adds resolutions |
| Merging.DeletedNamesGone | runtime/src/internal/util/serde.ts:858-863 | after a merge no deleted name is left on the object, whatever the properties said |
| Merging.MergeProperties | runtime/src/internal/util/serde.ts:835-863 | the loops on the heap and tracker compute exactly `MergedProps` and touch no other queue |
| Merging.MergeDelta | runtime/src/internal/util/serde.ts:866-928 | the checks come first, in source order, and change nothing; then a delete notifies any live instance with deleted = true, always queues the key for deletion and leaves the registry alone; a rejection removes only the key's weak entry and its instance's version, and queues a refetch; a create reuses the live instance or adds one weak entry for a newly installed one, merges, sets version 1 and notifies; an advance leaves every weak entry alone, merges, sets only the instance's version and notifies; the registry stays coherent with the heap |
| Merging.MergeReadable | runtime/src/internal/util/serde.ts:883-928 | past the checks, the object's fate is the one `Decide` picks from the deleted flag, the known version and the delta's version, carried out as `MergedReadable` relates the stores before and after, which gives the weak entries and versions after every fate in full; no class registration changes |
| Merging.MergeAway | runtime/src/internal/util/serde.ts:883-916 | a delete or a rejection reads no property and passes; a delete leaves the weak entries and versions as they were, and a rejection removes exactly the key's weak entry and its live instance's version, as `DataRegistry.remove` does |
| Merging.MergeCreate | runtime/src/internal/util/serde.ts:891-903 | a create leaves the store `CreatedFrom` names: the local instance kept, or one weak entry added for a newly installed one and no other changed, merged, at version 1, notified; a missing constructor fails with the store unchanged |
| Merging.MergeAdvance | runtime/src/internal/util/serde.ts:904-911 | an advance leaves the store `AdvancedFrom` names: every weak entry as it was, the live instance merged, at the delta's version with no other version changed, notified |
| Merging.CoherentSeparate | client/src/internal/util/registry.ts:136-152 | with the registry coherent, live weak entries under distinct keys hold distinct, allocated objects, since `setInstance` records each object under the one key it installs it for |
| Merging.MergeKeepsOthers | runtime/src/internal/util/serde.ts:866-928 | a merge changes the registry at its own key only: every other key keeps its instance and the version known for it, whatever the outcome |
| Merging.MergeKeepsSeparate | runtime/src/internal/util/serde.ts:883-928 | a passing merge keeps live entries on distinct objects, a newly installed object being one never registered before |
| Merging.MergeOwnKnown | runtime/src/internal/util/serde.ts:891-928 | on its own key, a passing merge that does not delete leaves the delta's version known when it is accepted and no version known when it is rejected |
| Merging.StoreAgrees | runtime/src/internal/util/serde.ts:878-881 | the instance and version mergeDelta looks up, and the constructor it installs with, read the same on the registry as on the snapshot of the state the merge relation is stated over |
| Merging.DeleteObject | runtime/src/internal/util/serde.ts:883-890 | the live instance, if any, is notified as deleted and the key is queued for deletion |
| Merging.RejectDelta | runtime/src/internal/util/serde.ts:914-916 | the key's weak entry goes, and a live instance also loses its version, key and listeners while nothing else in the registry changes, as `DataRegistry.Remove` states; a refetch is queued |
| Merging.CreateObject | runtime/src/internal/util/serde.ts:891-903 | a locally created instance is reused with the weak entries unchanged, or a new one installed under one added weak entry; it is merged, takes version 1 and is notified; a missing constructor fails before anything changes |
| Merging.Install | runtime/src/internal/util/serde.ts:895-898 | a new instance of the registered class with the key is allocated and registered, exactly when the class is registered: one weak entry and one object key are added and nothing else in the registry changes; a failure changes no registration |
| Merging.AdvanceObject | runtime/src/internal/util/serde.ts:904-911 | the instance is merged, takes the delta's version and is notified |
| Merging.Stamp | runtime/src/internal/util/serde.ts:900-901 | the version is recorded and one not-deleted notification is queued |
| Merging.AgreesKept | runtime/src/internal/util/serde.ts:835-863 | objects that keep their class and key keep agreeing with the registry |
| Merging.ReplaceData | runtime/src/internal/util/serde.ts:930-993 | after the checks (log context, class id, version 0, primary key), a deleted snapshot of a live instance notifies and deletes and returns null; a live instance loses its own properties, is refilled, takes the snapshot's version and is notified; otherwise a new instance is installed under one added weak entry and filled, without notification, whatever the deleted flag says; only that install changes a weak entry, and only the instance's version changes |
| Merging.ReplaceLive | runtime/src/internal/util/serde.ts:949-991 | a reused instance is cleared, refilled from the snapshot, takes its version and is notified; no weak entry can change, and a failure changes no version |
| Merging.ClearLive | runtime/src/internal/util/serde.ts:956-960 | the instance loses every own property and keeps its class and key |
| Merging.ReplaceMissing | runtime/src/internal/util/serde.ts:961-987 | a new instance is installed under one added weak entry, filled and given the snapshot's version, with no notification; a missing constructor changes no weak entry |
| Merging.Refill | runtime/src/internal/util/serde.ts:964-985 | the snapshot's properties are read into the object, which then takes the snapshot's version |
| Merging.NativeOf | runtime/src/internal/util/serde.ts:653-662 | an encoded primitive is the encoding of the value it decodes to |
| Merging.SnapshotNames | runtime/src/internal/util/serde.ts:964-966 | a snapshot's property names, one for one |
| Merging.SnapshotProperties | runtime/src/internal/util/serde.ts:956-985 | after replaceData with plain values, the object holds exactly the snapshot's properties, in its order and with its values, and nothing of its earlier state |
| Merging.SnapshotStep | runtime/src/internal/util/serde.ts:976-983 | one more snapshot property set on an object holding exactly the ones before it |
| Outerspace.Uint32LE | client/src/internal/service/outerspace-client.ts:110-113 | a number stored in a 32-bit header word is four bytes |
| Outerspace.ReadUint32LE | client/src/internal/service/outerspace-client.ts:121-127 | a little-endian word read back is below 2^32 |
| Outerspace.Uint32RoundTrip | client/src/internal/service/outerspace-client.ts:103-127 | a word written to the header and read back is the number modulo 2^32 |
| Outerspace.ReadUint32Prefix | client/src/internal/service/outerspace-client.ts:121-127 | a word is read from its own four bytes only |
| Outerspace.Bundle | client/src/internal/service/outerspace-client.ts:103-119 | a frame is written exactly when 8 plus the payload length is a multiple of 4 (otherwise the `Uint32Array` length error); it is 8 header bytes plus the payload: word 0 the request id, word 1 the payload length, each modulo 2^32, then the payload unchanged |
| Outerspace.ParseHeader | client/src/internal/service/outerspace-client.ts:121-128 | the header is read exactly when the buffer holds 5 bytes: the id from the first word, the send kind from byte 4, the payload from offset 5 |
| Outerspace.Classify | client/src/internal/service/outerspace-client.ts:144-173 | missing data, non-buffer data, a short buffer, send kind 0 and an unknown kind each fail with their own error; kind 1 goes to the waiting request with that id and kind 2 to the message handler, each with the bytes after the header |
| Outerspace.ResponseRoutedToItsRequest | client/src/internal/service/outerspace-client.ts:144-158 | a response frame for a request id reaches that request with its payload intact |
| Outerspace.MessageRoutedToHandler | client/src/internal/service/outerspace-client.ts:159-165 | a message frame reaches the message handler whatever id it carries |
| Outerspace.OuterspaceClient.constructor | client/src/internal/service/outerspace-client.ts:63-78 | a new client is open, waits for nothing and hands out request ids from 1 |
| Outerspace.OuterspaceClient.BundleRequest | client/src/internal/service/outerspace-client.ts:103-119 | the frame (or the length error) is for the next id, which is consumed either way and which no request waits under |
| Outerspace.OuterspaceClient.SendRequest | client/src/internal/service/outerspace-client.ts:85-101 | a closed client refuses before an id is consumed; a payload whose frame is not word-aligned, then a socket that is not ready, refuse after the id is consumed, sending nothing and leaving nothing waiting; otherwise the frame is sent and one request waits under the fresh id |
| Outerspace.OuterspaceClient.HandleResponse | client/src/internal/service/outerspace-client.ts:130-138 | the request waiting under the id stops waiting and is resolved once with the payload; an unknown id changes nothing |
| Outerspace.OuterspaceClient.OnMessage | client/src/internal/service/outerspace-client.ts:144-173 | a response is handled against the waiting requests, a message goes to the handler and leaves them alone, and anything else throws with nothing changed |
| Outerspace.OuterspaceClient.Shutdown | client/src/internal/service/outerspace-client.ts:80-83 | the socket is told to close when the client is open |
| Outerspace.TwoRequestsNotSwapped | client/src/internal/service/outerspace-client.ts:85-138 | two requests wait under distinct ids, and a response to the second reaches the second even when it arrives first |
| River.Platform.Open | client/src/internal/service/outerspace-client.ts:29-49 | an empty user key is refused before any socket exists; otherwise the connection either opens, giving a new connection, or closes and the attempt fails |
| River.Platform.Send | client/src/internal/service/outerspace-client.ts:85-101 | the request goes out and the next reply comes back; with none left the send fails |
| River.ReadKeepsWellFormed | runtime/src/internal/util/serde.ts:516-603 | a well-formed reply read successfully gives a well-formed response |
| River.Exchange | runtime/src/internal/service/river-client.ts:152-242 | each client operation sends its request once over its connection and reads the reply against the request's own response type, accepting companion messages only for a service call or a save |
| River.Classify | runtime/src/internal/service/river-client.ts:44-73 | a message is for this warp exactly when the keys are equal |
| River.VerdictMeaning | runtime/src/internal/service/river-client.ts:44-73 | the four rejections mean: same warp id at another version; another registered warp; a warp id nobody registered; a registered warp id at an unregistered version |
| River.ValidateWarpTarget | runtime/src/internal/service/river-client.ts:44-73 | a message passes exactly when it is for the expected warp; every other case fails with the wrong-warp error, or with the registry's missing-value error when the expected warp's name is looked up and it is not registered |
| River.PushWarpKey | runtime/src/internal/service/river-client.ts:90 | a pushed message's warp key is built exactly when its id and version are positive |
| River.Dispatch | runtime/src/internal/service/river-client.ts:81-124 | a pushed message is handled exactly when its log context is non-empty, its warp key is valid and this client's, and it carries a message of a known kind; each refusal has its own error, and the handler receives the client's own key |
| River.MisaddressedRefused | runtime/src/internal/service/river-client.ts:100-116 | a message of a known kind for any other warp is refused as misaddressed |
| River.GetRiverClient | runtime/src/internal/service/river-client-factory.ts:10-25 | a cached client is returned as it is; an unregistered warp fails before any connection is attempted; otherwise a connection is opened with the warp's user key and stored only if it opens |
| Sync.KeepsDataAt | runtime/src/internal/util/serde.ts:930-993 | a live Data object with a primary key stays one while objects keep their class and key |
| Sync.FetchData | client/src/internal/client.ts:143-172 | the request for the key goes to the key's warp over its cached or newly opened connection; a reply that is not OK fails; every snapshot is installed into the caller's tracker, and the result is the object installed by the last snapshot that matches the key and installed one (a live object with the key's primary key), or null only when every matching snapshot was deleted; only a deletion installs nothing |
| Sync.AskForData | client/src/internal/client.ts:147-153 | one getData request for the key goes out over the warp's client and an OK reply yields its snapshots |
| Sync.RequestData | runtime/src/internal/service/river-client.ts:152-164 | the request goes out over the client's own connection, after everything sent before, and only an OK reply yields snapshots |
| Sync.LoadSnapshot | runtime/src/internal/util/serde.ts:930-993 | an installed object is a live Data object with the snapshot's primary key, and only a deleted snapshot installs nothing |
| Sync.LoadAll | client/src/internal/client.ts:155-165 | the loop over the snapshots: a missing one fails; each snapshot installs a live Data object with its own primary key or, only for a deletion, nothing; the target is the object of the last matching snapshot that installed one, or null when every matching snapshot was deleted |
| Sync.LastInstalled | client/src/internal/client.ts:155-163 | the snapshot whose object is returned is the last that matches the key and installed an object: no later matching snapshot installed one, and none is chosen only when no matching snapshot installed one |
| Sync.InstalledNext | client/src/internal/client.ts:155-163 | one more snapshot installed extends the record, and the target moves to its object exactly when it matches the key and installed one |
| Sync.DeliveredKept | runtime/src/internal/util/tracker.ts:126-157 | what was delivered for the first keys stays delivered while objects keep their keys |
| Sync.InvokedKeepsData | runtime/src/internal/util/tracker.ts:137-151 | running a resolution callback keeps every Data object's class and key |
| Sync.Retrieve | runtime/src/internal/util/tracker.ts:133-136 | a key with a live instance is answered from the registry with nothing changed; otherwise it is fetched into the same tracker, consuming a reply; what comes back is a live Data object with that key, or null |
| Sync.RetrieveNext | runtime/src/internal/util/tracker.ts:141-148 | key i is retrieved after the earlier ones, and what they received stays valid |
| Sync.RetrieveAll | runtime/src/internal/util/tracker.ts:141-148 | the keys of an item are retrieved in order; when all are live nothing is fetched and nothing changes |
| Sync.ServeItem | runtime/src/internal/util/tracker.ts:132-151 | an item's keys are retrieved and its callback then runs once with what was retrieved, receiving only live Data objects with the keys asked for, or null; a null callback changes nothing |
| Sync.ServeRound | runtime/src/internal/util/tracker.ts:129-152 | one round serves the queue as it was at the round's start, item by item; with no fetch, no queue and no reply changes |
| Sync.Resolve | runtime/src/internal/util/tracker.ts:126-153 | an empty log context fails at once; on success every item queued at the start has been served, in order, and the queue is empty; the loop ends because every fetch consumes a reply |
| Sync.ApplyOnce | runtime/src/internal/util/tracker.ts:169-178 | references are resolved first, then every queued message reaches its listeners, then every queued update including those the fetches added, and deletions come last; on success all four queues are empty and every deleted key has no instance |
| Sync.Flush | runtime/src/internal/util/tracker.ts:172-177 | messages are fired, then updates; deletions are applied only when every update found its object |
| UpdateHandling.EventInstanceKey | runtime/src/internal/util/update-handler.ts:39-50 | an event's instance key is its message class with the Data or Service named as its source, built exactly when the class id and the source are valid; any other source is refused |
| UpdateHandling.EventReachesOnlyItsSource | runtime/src/internal/util/update-handler.ts:39-50 | an instance key's text names one key only, so an event reaches exactly the listeners of its own class and source |
| UpdateHandling.HandleDataUpdate | runtime/src/internal/util/update-handler.ts:94-111 | every delta is merged into the caller's tracker in message order and nothing is applied: the first `merged` deltas pass through a chain of stores, each step the `Merging.Merged` relation, starting from the state before; on success the state is the chain's last store; a missing or failing delta stops the loop, relating the chain's last store to the state after by `MergedOne`; an empty log context fails first |
| UpdateHandling.MergeNext | runtime/src/internal/util/update-handler.ts:101-108 | one turn of the loop: a passing delta extends the chain by the store it leads to, which is the new state; a failing one leaves the chain and relates its last store to the new state by `MergedOne` |
| UpdateHandling.MergedChainSnoc | runtime/src/internal/util/update-handler.ts:101-108 | a chain of merges followed by one more passing delta is a chain over the longer message |
| UpdateHandling.MergedChainPresent | runtime/src/internal/util/update-handler.ts:101-106 | every delta of a chain that passed was present |
| UpdateHandling.ChainsJoin | runtime/src/internal/util/update-handler.ts:94-111 | two chains of merges, the second starting where the first ends, form one chain over the deltas of both, which is how several messages merged into one tracker read |
| UpdateHandling.MergedChainPrefix | runtime/src/internal/util/update-handler.ts:101-108 | the first n steps of a chain of merges are a chain |
| UpdateHandling.VersionIfNames | runtime/src/internal/util/update-handler.ts:101-108 | a delta adds its version to a key's run exactly when it is present and names that key |
| UpdateHandling.TracksStep | runtime/src/internal/util/update-handler.ts:101-108 | one passing merge moves a key's known version as `Track` does over the version the delta contributes, and keeps live entries on distinct objects |
| UpdateHandling.ChainTracks | runtime/src/internal/util/update-handler.ts:94-111 | along a message's chain of merges, each object's known version follows the version state machine over the deltas that name it, deltas for other keys leaving it alone; a key no delta names keeps its instance and version |
| UpdateHandling.MergeOne | runtime/src/internal/util/update-handler.ts:101-108 | a missing delta is invalid data and changes nothing; a present one relates the state before and after as `Merging.Merged` does |
| UpdateHandling.HandleDataUpdateWithTracker | runtime/src/internal/util/update-handler.ts:113-117 | the deltas are merged into a fresh tracker through a chain of `Merging.Merged` steps that starts from the current objects and empty queues; a missing delta fails before any listener is called; on success the update listeners hear of at least every update the chain queued, every key it queued for deletion is gone, and no other listener is called |
| UpdateHandling.MergeFresh | runtime/src/internal/util/update-handler.ts:113-115 | a fresh tracker, with no message, whose store is the end of the chain of `Merging.Merged` steps for every delta, in order, from the current objects and empty queues |
| UpdateHandling.ApplyMerged | runtime/src/internal/util/update-handler.ts:116 | a merged tracker applied once: its one event's listeners first, if it holds one, then the update listeners for at least every update it held; every key it held for deletion is gone |
| UpdateHandling.EventItems | runtime/src/internal/util/update-handler.ts:68-88 | the event's properties are read one for one, in order |
| UpdateHandling.HandleEvent | runtime/src/internal/util/update-handler.ts:25-92 | the log context, the event and its instance key are checked first, each failure changing no object; on success a new event object of the registered class is created, the bundled deltas are merged through a chain of `Merging.Merged` steps from the store holding it, the properties are decoded into it on the chain's last store, and the trace is the event's own listener calls with the new object, then the update listeners for at least every update the chain queued |
| UpdateHandling.DeliverEvent | runtime/src/internal/util/update-handler.ts:54-91 | the event's own tracker takes the deltas through a chain of `Merging.Merged` steps, then the properties decoded on the chain's last store, then the event; applied once, it calls the event's listeners, then the update listeners for at least every update the chain queued |
| UpdateHandling.PrepareEvent | runtime/src/internal/util/update-handler.ts:54-90 | before it is applied, the event's tracker holds exactly one queued event |
| UpdateHandling.CreateEvent | runtime/src/internal/internal-model-types.ts:30-40 | a new event object of the registered class is allocated exactly when the class is registered |
| UpdateHandling.FillEvent | runtime/src/internal/util/update-handler.ts:68-88 | the properties are decoded into the event object as `DecodeItems` says, a plain value at once and a Data reference through a resolution |
| Client.ParseWarpKey | client/src/internal/client.ts:35 | a warp key is built from a decimal id and version, both positive; an id that does not parse fails with the parse error |
| Client.ParseWarpKeyRoundTrip | client/src/internal/client.ts:35 | every warp key is named by its own id and version written in decimal |
| Client.RegisterWarp | client/src/internal/client.ts:33-38 | the key built from the text is registered with the warp's name and user key and returned, and the warp id now finds it; any failure registers nothing |
| Client.RegisterService | client/src/internal/client.ts:40-43 | a Service class is registered exactly when its class id is non-zero, its name non-empty and its class key new, and its constructor then maps to its class key |
| Client.RegisterData | client/src/internal/client.ts:45-47 | a Data class is registered under the same rules |
| Client.RegisterMessage | client/src/internal/client.ts:49-52 | a Message class is registered under the same rules |
| Client.Split | client/src/internal/client.ts:85-107 | sorting succeeds exactly when every message is of a known kind, putting events in one list and updates in the other; otherwise it is invalid data |
| Client.SplitPartitions | client/src/internal/client.ts:85-107 | sorting loses and invents nothing: the two lists hold exactly the reply's messages |
| Client.SplitWellFormed | client/src/internal/client.ts:85-107 | well-formed messages sort into well-formed events and updates |
| Client.SplitAppend | client/src/internal/client.ts:85-107 | sorting keeps reply order within each list |
| Client.SplitMessages | client/src/internal/client.ts:85-107 | the sorting loop computes exactly `Split` |
| Client.SplitPrefixErr | client/src/internal/client.ts:104-105 | a message of no known kind fails the whole reply |
| Client.ServiceKeyOf | client/src/internal/client.ts:58-59 | a service's key is its constructor's registered class key with its primary key, built exactly when the constructor is registered and the primary key non-empty |
| Client.Invoke | client/src/internal/client.ts:54-82 | service and method id are checked before anything is sent; the call request for the service's key and method goes out once over the warp's connection; a reply that is not OK fails; the heap does not change |
| Client.CallOnRiver | runtime/src/internal/service/river-client.ts:166-177 | the call request is built, sent once over the client's connection and its reply read as a service call's, with bundled messages allowed; a request that cannot be built sends nothing |
| Client.HandleEvents | client/src/internal/client.ts:109-112 | every bundled event is handled in full, in reply order, each with its own tracker: on success every event had an instance key and its deltas merged through its own chain of `Merging.Merged` steps, and the trace grew by exactly each event's delivery calls, event after event; no events make no calls |
| Client.HandleOneEvent | client/src/internal/client.ts:111 | one event handled: its instance key is built, its deltas merged through a chain of `Merging.Merged` steps, and the trace grows by exactly its delivery calls |
| Client.EventsSnoc | client/src/internal/client.ts:109-112 | one more event handled after the ones before extends the keys, the merges and the listener calls by exactly that event's |
| Client.MergeUpdates | client/src/internal/client.ts:113-117 | every bundled update is merged into the one tracker they share: on success the deltas of all updates, message after message, went through one chain of `Merging.Merged` steps from the old state to the new one, every delta present; no listener is called |
| Client.HandleCompanions | client/src/internal/client.ts:84-118 | an unknown kind fails before any listener is called; on success the events were each handled in full, the trace grew by exactly their delivery calls in order, and the updates' deltas were merged through one chain of `Merging.Merged` steps into the call's tracker, which holds no new message |
| Client.HandleSorted | client/src/internal/client.ts:108-117 | the events are handled in turn, each through its own chain of merges, the trace growing by exactly their delivery calls; then the updates are merged through one chain into the shared tracker |
| Client.Finish | client/src/internal/client.ts:120-140 | a missing return value is invalid data; otherwise the tracker is applied once and all its queues end empty, its messages and updates having reached their listeners |
| Client.Conclude | client/src/internal/client.ts:138-140 | the tracker is applied once, then the assigned local or the value as read is returned |
| Client.ReadReturnValue | client/src/internal/client.ts:124-136 | the return value is decoded into the call's tracker; a Data reference leaves a resolution whose callback assigns a fresh local |
| Client.CallServiceMethod | client/src/internal/client.ts:54-141 | the argument checks come first and send nothing; a successful call was made on a registered service, the reply's events were handled in full and merged, its updates merged through one chain from empty queues, and the trace is the events' delivery calls followed by the update listeners for at least every update the chain queued |
| Client.Complete | client/src/internal/client.ts:84-141 | a reply with an unknown message kind fails; on success the events were handled in full and merged, the updates merged through one chain from empty queues, and the trace is the events' delivery calls followed by the update listeners for at least every update the chain queued |
| WarpFacade.RequireObjects | runtime/src/internal/util/serde.ts:1095-1103 | an object or array argument passes exactly when it names at least one object; an empty array fails naming the argument |
| WarpFacade.Call | runtime/src/internal/service/river-client.ts:152-242 | the warp's connection is fetched first, then the request goes out once and its reply is read; a reply that reads but is not OK fails with the error built from it |
| WarpFacade.GetData | client/src/public/warp.ts:52-65 | an empty primary key or an unregistered class fails before anything is sent; on success the result is a live Data object with the primary key asked for, or null, the one `Sync.LastInstalled` picks from the reply's snapshots, and the only listeners called are those of the updates applied |
| WarpFacade.Store | runtime/src/internal/service/river-client.ts:179-190 | the save request built from the objects goes out once and an OK reply yields its bundled messages |
| WarpFacade.MergeSaved | client/src/public/warp.ts:88-104 | on success every bundled message was a data update with all its deltas present, and their deltas, message after message, were merged through one chain of `Merging.Merged` steps from the old state to the new one; nothing is delivered |
| WarpFacade.SaveData | client/src/public/warp.ts:75-106 | no objects, or objects that are not acceptable, fail with the matching error before anything is sent; on success the save request built from the objects was the next request sent, every bundled message was a data update merged through one chain from a fresh tracker, and the trace is the update listeners for at least every update the chain queued |
| WarpFacade.SaveTo | client/src/public/warp.ts:80-105 | on success the save request built from the objects was the next request sent, the reply's updates were merged through one chain from a fresh tracker, and only update listeners are called, for at least every update the chain queued |
| WarpFacade.Absorb | client/src/public/warp.ts:87-105 | a reply carrying anything but data updates fails; on success their deltas were merged through one chain of `Merging.Merged` steps from a fresh tracker, which is applied once: the update listeners hear of at least every update the chain queued and every key it queued for deletion is gone |
| WarpFacade.CloseConnections | client/src/public/warp.ts:112-116 | every cached connection is dropped and returned, and every Message and update listener is removed; versions and keys stay |
| WarpFacade.GetService | client/src/public/warp.ts:124-131 | with no network call, an empty primary key fails and an unregistered class fails; otherwise one new service object is allocated whose service key is the class's key with the primary key |
| WarpFacade.SourceKeyOf | client/src/public/warp.ts:33-42 | a Data object is known by the key the registry holds for it, a Service by its registered class and primary key; any other object is no message source |
| WarpFacade.InstanceKeyFor | client/src/public/warp.ts:143-147 | the source is checked first; the instance key is the message class's key with the source's key, built exactly when both are known |
| WarpFacade.RemoveMessageListener | client/src/public/warp.ts:139-150 | only the local listener goes, once; the subscription stays and nothing is sent |
| WarpFacade.SubscribeMessage | client/src/public/warp.ts:161-189 | an instance already subscribed gains the listener with nothing sent; otherwise one subscription request goes to the message class's warp and the listener is added only once the reply is OK |
| WarpFacade.UnsubscribeMessage | client/src/public/warp.ts:199-219 | one unsubscription request goes to the message class's warp, and only once the reply is OK are all the instance's listeners removed |
| WarpFacade.UnsubscribeKey | client/src/public/warp.ts:209-218 | once the key is known, one unsubscription request is sent and an OK reply removes the instance's listeners |
| WarpFacade.WithListenerMeaning | client/src/public/warp.ts:261-271 | adding a listener to a list of objects appends it to each object's list once per time the object is named, and leaves other lists alone |
| WarpFacade.WithoutListenerKeeps | client/src/public/warp.ts:243-253 | removing a listener keeps the same objects listed and leaves the lists of objects not named alone |
| WarpFacade.WithoutListenerMeaning | client/src/public/warp.ts:243-253 | removing a listener takes from each named object's list as many copies of it as the object is named, as far as it has them, and nothing else |
| WarpFacade.Cleared | client/src/public/warp.ts:227-236 | clearing the listeners of a list of objects removes exactly those objects' lists |
| WarpFacade.AddUpdateListener | client/src/public/warp.ts:261-271 | at least one object is required; the listener is then added to each object's list in turn, and nothing is subscribed |
| WarpFacade.RemoveUpdateListener | client/src/public/warp.ts:243-253 | at least one object is required; the listener is then removed from each object's list in turn, and nothing is unsubscribed |
| WarpFacade.ClearUpdateListeners | client/src/public/warp.ts:227-236 | at least one object is required; each object's list is then dropped, and nothing is unsubscribed |
| WarpFacade.UpdateSubscription | client/src/public/warp.ts:280-320 | unacceptable objects fail before anything is sent; otherwise one request naming every object's key, in order, goes to their warp, and its reply must be OK; nothing local changes |
| Base64.Sym | tools/src/util/base64.ts:8 | an alphabet character is never the padding character |
| Base64.Val | tools/src/util/base64.ts:2 | an alphabet character's value is a 6-bit number |
| Base64.SymVal | tools/src/util/base64.ts:1-9 | every 6-bit value's character reads back as that value |
| Base64.Encode | tools/src/util/base64.ts:7-9 | the encoded text has four characters for every started group of three bytes |
| Base64.QuadRoundTrip | tools/src/util/base64.ts:1-9 | three bytes encoded as a group of four characters decode back |
| Base64.PairRoundTrip | tools/src/util/base64.ts:1-9 | two final bytes encoded with one padding character decode back |
| Base64.SingleRoundTrip | tools/src/util/base64.ts:1-9 | one final byte encoded with two padding characters decodes back |
| Base64.DecodeGroups | tools/src/util/base64.ts:2 | a text of whole groups decodes group by group |
| Base64.DecodeEncode | tools/src/util/base64.ts:1-9 | decoding the encoding of any bytes gives those bytes back |
| Base64.LastGroupRoundTrip | tools/src/util/base64.ts:1-9 | three bytes encode to one unpadded group, which decodes back |
| Base64.GroupThenRest | tools/src/util/base64.ts:1-9 | more than three bytes round-trip when the bytes after the first three do |
| ToolText.Utf16Length | tools/src/util/validators.ts:28 | a string's `.length` counts UTF-16 code units: at least one and at most two per character, and exactly one per character when none is above U+FFFF |
| ToolText.Utf16LengthAppend | tools/src/util/validators.ts:28 | the `.length` of two strings joined is the sum of their lengths |
| ToolText.LowerIdempotent | tools/src/util/validators.ts:5 | lower-casing twice changes nothing more than lower-casing once |
| ToolText.LowerAt | tools/src/util/validators.ts:5 | lower-casing keeps the length and maps each character on its own |
| ToolText.Join | tools/src/model/warp-config.ts:57 | a file name joined to a directory ends with that name |
| Validators.AllNameChars | tools/src/util/validators.ts:9 | the scan accepts exactly when every character is a letter, a digit, '-' or '_' |
| Validators.WarpNameValid | tools/src/util/validators.ts:8-11 | a warp name is valid exactly when its string form has 3 to 50 characters, each a letter, a digit, '-' or '_' |
| Validators.ValidateWarpNameOrError | tools/src/util/validators.ts:13-19 | the verdict on a warp name is the validator's, unchanged |
| Validators.PasswordValid | tools/src/util/validators.ts:21-29 | a password is valid exactly when it is a string of at least 8 UTF-16 code units, so 8 characters always suffice and 4 above U+FFFF do too |
| Validators.EmailIgnoresCase | tools/src/util/validators.ts:3-6 | the e-mail check does not depend on the case of ASCII letters |
| Validators.EmailSameVerdict | tools/src/util/validators.ts:3-6 | two addresses differing only in letter case get the same verdict |
| JayneErrors.NewScriptError | tools/src/model/jayne-error.ts:8-12 | a script error is built exactly when message and stack are truthy, the message being checked first |
| JayneErrors.NewCodeError | tools/src/model/jayne-error.ts:30-34 | a code error is built exactly when error and category are truthy, the error being checked first |
| JayneErrors.ScriptFromJson | tools/src/model/jayne-error.ts:14-22 | the body must be truthy and own "message" and "stack", each missing one with its own error; the message must be truthy; a falsy stack becomes the placeholder text, so the stack is always truthy |
| JayneErrors.CodeFromJson | tools/src/model/jayne-error.ts:36-44 | the body must be truthy and own "error" and "category", each missing one with its own error, and both must be truthy; the result carries both |
| JayneErrors.ParseError | tools/src/model/jayne-error.ts:90-103 | the body must be truthy and own "type"; "code" and "script_exception" select their decoder, any other type is refused, and a code error comes exactly from type "code" |
| JayneErrors.ScriptMessageSplits | tools/src/model/jayne-error.ts:24-26 | a one-line message and its stack can be read back from the combined text |
| JayneErrors.CodeMessageNone | tools/src/model/jayne-error.ts:46-87 | the message text is missing exactly for a category the switch does not know |
| JayneErrors.CodeMessageKnown | tools/src/model/jayne-error.ts:47-81 | a known category and error get the fixed text of the table |
| JayneErrors.PlatformKnown | tools/src/model/jayne-error.ts:48-59 | a known Platform error gets its fixed text |
| JayneErrors.BusinessKnown | tools/src/model/jayne-error.ts:63-78 | a known BusinessLogic error gets its fixed text |
| JayneErrors.CodeMessageUnknownError | tools/src/model/jayne-error.ts:60-85 | any other error of a known category gets that category's prefix followed by the error |
| JayneErrors.NonStringError | tools/src/model/jayne-error.ts:60-80 | a non-string error never matches a fixed case and is prefixed |
| JayneErrors.PlatformOtherName | tools/src/model/jayne-error.ts:60-61 | a Platform error not among the five named ones is prefixed |
| JayneErrors.BusinessOtherName | tools/src/model/jayne-error.ts:79-80 | a BusinessLogic error not among the seven named ones is prefixed |
| AdminKeys.NewAdminKeyFile | tools/src/model/admin-key-file.ts:21-24 | a key file is built exactly when the key is truthy, and carries it |
| AdminKeys.KeyFilePath | tools/src/model/admin-key-file.ts:11-14 | the key file lives at `.config/stacklessjs/warp-admin-key.json` under the home directory |
| AdminKeys.FromJsonObject | tools/src/model/admin-key-file.ts:34-46 | an empty object, a missing key and a falsy key or one whose length (in UTF-16 code units for a string) is not 256 each fail with their own reason; otherwise the key file carries the object's key |
| AdminKeys.StringKeyAccepted | tools/src/model/admin-key-file.ts:42 | a string key is accepted exactly when it has 256 UTF-16 code units |
| AdminKeys.TryFromKeyFile | tools/src/model/admin-key-file.ts:65-89 | a missing file, empty contents, an object without a key and a falsy key or one of the wrong length give no key file; text that is not JSON makes the parse throw; a key file carries the parsed key |
| AdminKeys.TryAgreesWithFromJson | tools/src/model/admin-key-file.ts:34-89 | reading a key file gives a key file exactly when the object passes `fromJsonObject`, and the same one, unless the key's length is itself the text "256" |
| AdminKeys.TryOpen | tools/src/model/admin-key-file.ts:56-63 | no file at the default path gives no key file; otherwise that file is read as `tryFromKeyFile` reads it |
| WarpConfigs.NewWarpIdentity | tools/src/model/warp-config.ts:25-41 | an identity is built exactly when its admin key is truthy and, once any of checksum, warp id or warp version is given, all five booted fields are truthy; every refusal names a falsy argument |
| WarpConfigs.ZeroLastClassIdRejected | tools/src/model/warp-config.ts:33-38 | a booted identity whose last class id is 0 is refused, since 0 is falsy |
| WarpConfigs.UnbootedIdentity | tools/src/model/warp-config.ts:32-33 | an identity that was never booted needs only its admin key |
| WarpConfigs.NewWarpConfig | tools/src/model/warp-config.ts:44-52 | a configuration is built exactly when warp, identity and onBootModule are truthy, the first falsy one being named |
| WarpConfigs.TrimSlashes | tools/src/model/warp-config.ts:115 | trailing '/' characters are removed and nothing else |
| WarpConfigs.LastIndex | tools/src/model/warp-config.ts:115 | the index found holds the character and none follows it |
| WarpConfigs.BaseName | tools/src/model/warp-config.ts:115 | the base name holds no '/' |
| WarpConfigs.ExtName | tools/src/model/warp-config.ts:115 | an extension is empty or one '.' followed by characters that are neither '.' nor '/' |
| WarpConfigs.ExtOfBase | tools/src/model/warp-config.ts:115 | a base name's extension is a suffix of it, empty or starting with its only '.' |
| WarpConfigs.LastIndexAppend | tools/src/model/warp-config.ts:115 | characters appended after the last occurrence do not move it when they differ from it |
| WarpConfigs.BaseNameBelow | tools/src/model/warp-config.ts:115 | below a directory, a name without '/' is the base name |
| WarpConfigs.BaseOfNamed | tools/src/model/warp-config.ts:115 | below a directory, `name.ext` is its own base name |
| WarpConfigs.ExtOfNamedBase | tools/src/model/warp-config.ts:115 | a base name `name.ext` whose last '.' is the added one and that does not start with '.' has the extension `.ext` |
| WarpConfigs.NoDotNoExt | tools/src/model/warp-config.ts:115-117 | a base name without '.' has no extension, so such an onBootModule is accepted |
| WarpConfigs.FromFileObject | tools/src/model/warp-config.ts:90-119 | an accepted file object has all four fields, a valid warp name and truthy identity, types and onBootModule; its identity is base64 text whose decoded JSON becomes the identity; a missing field is reported as corrupt |
| WarpConfigs.Open | tools/src/model/warp-config.ts:79-120 | a missing file and an empty file are refused before parsing; an accepted file is the parsed object as `FromFileObject` reads it |
| WarpConfigs.WriteToDir | tools/src/model/warp-config.ts:54-69 | the directory must exist; the record goes to the configuration file name joined to it |
| WarpConfigs.AcceptsValidObject | tools/src/model/warp-config.ts:90-119 | an object that passes every check is handed to the constructor with its decoded identity |
| WarpConfigs.RecordRoundTrip | tools/src/model/warp-config.ts:54-119 | what `writeToDir` records, `open` reads back unchanged, provided the identity survives its own JSON round trip |
| WarpConfigs.FileRoundTrip | tools/src/model/warp-config.ts:54-120 | the same round trip through the file's bytes |
| Connect.BuildKey | tools/src/command/connect.ts:16-19 | the build key is "connect-" followed by the lower-cased warp name, so it can never clash with the "build" script itself |
| Connect.BuildKeyIgnoresCase | tools/src/command/connect.ts:16-19 | two warp names that differ only in letter case get the same build key and the same `npm run` command |
| Connect.RegenCommand | tools/src/command/connect.ts:161-166 | the regenerate command is the build key's `npm run` command when the build is updated, otherwise `warp connect` with the name exactly as typed |
| Connect.WithBuild | tools/src/command/connect.ts:43-49 | the build script is accepted exactly when it is absent, a string or an array; afterwards it includes the run command and every other script is kept; when it already includes the run command nothing changes |
| Connect.BuildPrepended | tools/src/command/connect.ts:46-48 | a build script that does not yet include the run command gets "<run> && " put in front of it |
| Connect.WithBuildIdempotent | tools/src/command/connect.ts:43-49 | updating the build script a second time changes nothing |
| Connect.UpdatedScripts | tools/src/command/connect.ts:28-50 | the scripts succeed exactly when the existing scripts are an object and its build script can be updated; the build key then maps to the non-interactive connect command |
| Connect.UpdatedDependencies | tools/src/command/connect.ts:52-57 | the dependencies succeed exactly when they are absent or an object; the warp package then points at "file:./" plus its root path, the client library at "latest", and every other dependency is kept |
| Connect.UpdatedPackageOk | tools/src/command/connect.ts:21-62 | updating package.json succeeds exactly when it is an object whose dependencies are an object or absent and, when the build is updated, whose scripts and build script have an updatable shape |
| Connect.UpdatedPackageEffect | tools/src/command/connect.ts:21-62 | an updated package.json has both dependencies, the build key and a build script that runs it (when the build is updated), and keeps every other top-level field |
| Connect.UpdatedPackageIdempotent | tools/src/command/connect.ts:21-62 | connecting the same warp a second time leaves package.json as it is |
| Connect.SpaceRunEnd | tools/src/command/connect.ts:66-67 | the `\s*` group of the indent pattern ends at the first character that is not white space |
| Connect.FirstMatch | tools/src/command/connect.ts:66-67 | the first place where a line starts with white space and then `"name"`, or none when no place matches |
| Connect.IndentRule | tools/src/command/connect.ts:64-88 | without a match the npm default of two spaces is used; a tab-only indent gives tabs, a space-only indent gives that many spaces, a capture with both or neither gives the default, and a count is always positive |
| Connect.RunOfIndent | tools/src/command/connect.ts:66-67 | in a file that opens with "{", a new line and an indent, the match is that indent and lies on the second line |
| Connect.IndentOfFirstLine | tools/src/command/connect.ts:64-88 | a file whose `"name"` line is indented by n spaces is rewritten with n spaces, one indented by tabs is rewritten with tabs |
| Connect.StringifyIndent | tools/src/command/connect.ts:59-60 | the rewrite indents with a tab, or with the counted spaces capped at ten as JSON.stringify does |
| Connect.UpdatePackageJson | tools/src/command/connect.ts:21-62 | the rewritten text is that of the updated package object, stringified with the indent found in the original text |
| Connect.PreflightAsWritten | tools/src/command/connect.ts:120-138 | as written, the checks before connecting pass exactly when the user is logged in, the project directory exists and the warp name is valid; nothing checks that package.json exists |
| Connect.PreflightMissesPackageJson | tools/src/command/connect.ts:130-134 | a project directory without a package.json passes the checks as written |
| Connect.Preflight | tools/src/command/connect.ts:120-138 | corrected: the checks pass exactly when the user is logged in, the directory and its package.json exist and the warp name is valid, and yield that package.json |
| ClientGenerator.Each | tools/src/util/client-generator.ts:192-261 | reading a list of index entries succeeds exactly when every entry reads, with one output per entry in order |
| ClientGenerator.EachStep | tools/src/util/client-generator.ts:192-261 | one more entry that reads adds its own output at the end |
| ClientGenerator.EachKeepsFault | tools/src/util/client-generator.ts:192-261 | a fault in the entries read so far is the fault of the whole list |
| ClientGenerator.EachStop | tools/src/util/client-generator.ts:192-261 | the first entry that fails decides the error |
| ClientGenerator.EachFirstFault | tools/src/util/client-generator.ts:192-261 | the error reported is that of an entry all of whose predecessors read |
| ClientGenerator.EachDone | tools/src/util/client-generator.ts:192-261 | a loop that has read every entry has the outputs of the whole list |
| ClientGenerator.ArgOut | tools/src/util/client-generator.ts:115-125 | an argument is rendered exactly when its name and its type are both non-empty, and an error names the owner of the argument |
| ClientGenerator.RenderArgs | tools/src/util/client-generator.ts:115-125 | the loop over a method's arguments gives the same result as reading the list entry by entry |
| ClientGenerator.MethodDefOf | tools/src/util/client-generator.ts:94-155 | a method definition needs a name, a return type and readable arguments; a getter takes no arguments, a setter returns void, an absent or normal kind is a normal method and an unknown kind is refused |
| ClientGenerator.ServiceSetterRejected | tools/src/util/client-generator.ts:137-139 | a service setter is always refused, because its return type has already become a promise |
| ClientGenerator.ServiceMethodRenamed | tools/src/util/client-generator.ts:253-260 | a service method is declared as "<name>Async" returning "Promise<T>" |
| ClientGenerator.RenderMethodDef | tools/src/util/client-generator.ts:94-155 | the step-by-step method definition agrees with its specification |
| ClientGenerator.ClassDefOf | tools/src/util/client-generator.ts:45-163 | a class definition needs a name, keeps it, extends its kind's base class and has one method definition per method; an empty name is reported first |
| ClientGenerator.GetClassDef | tools/src/util/client-generator.ts:45-163 | the loop that pushes each method's definition agrees with the class definition |
| ClientGenerator.RenderClassDefs | tools/src/util/client-generator.ts:228-261 | the loop over the classes of one kind agrees with reading them entry by entry |
| ClientGenerator.FunctionDefOf | tools/src/util/client-generator.ts:192-226 | a free function's definition exists exactly when its name, return type and arguments are readable, and keeps its name and return type |
| ClientGenerator.HeaderFault | tools/src/util/client-generator.ts:179-190 | the index header passes exactly when it has a name and a non-zero id and version |
| ClientGenerator.DefsFollowIndex | tools/src/util/client-generator.ts:165-267 | the definitions follow the index: one per free function and one per class of every kind, names kept and in index order |
| ClientGenerator.GenerateDefs | tools/src/util/client-generator.ts:165-267 | generating the definitions section by section agrees with their specification |
| ClientGenerator.FreeFunctionOut | tools/src/util/client-generator.ts:304-317 | a free function is emitted exactly when it has source code and a name, and contributes both |
| ClientGenerator.FreeClassOut | tools/src/util/client-generator.ts:319-334 | a free class is emitted exactly when it has source code and a name, and contributes both |
| ClientGenerator.IdentifiedClassOut | tools/src/util/client-generator.ts:336-385 | a data or message class is emitted exactly when it has a name, a positive class id and source code; an invalid id is reported after the name |
| ClientGenerator.ArgNameOut | tools/src/util/client-generator.ts:414-421 | a service method argument is accepted exactly when its name is non-empty |
| ClientGenerator.ServiceMethodOutOf | tools/src/util/client-generator.ts:402-440 | a service method needs a name and a positive method id, keeps both, and passes its arguments on exactly when it has any |
| ClientGenerator.ServiceOutOf | tools/src/util/client-generator.ts:387-448 | a service class needs a name and a positive class id and gets one rendered method per method |
| ClientGenerator.ClientExportsInOrder | tools/src/util/client-generator.ts:276-479 | the client exports every free function, free class, data class, message class and service by name, in that order and in index order |
| ClientGenerator.ClientIdsPositive | tools/src/util/client-generator.ts:276-479 | a generated client has a non-zero warp id and version and positive class and method ids throughout |
| ClientGenerator.RenderFreeFunctions | tools/src/util/client-generator.ts:304-317 | the loop over the free functions agrees with reading them entry by entry |
| ClientGenerator.RenderFreeClasses | tools/src/util/client-generator.ts:319-334 | the loop over the free classes agrees with reading them entry by entry |
| ClientGenerator.RenderIdentifiedClasses | tools/src/util/client-generator.ts:336-385 | the loop over the data or message classes agrees with reading them entry by entry |
| ClientGenerator.RenderServiceMethod | tools/src/util/client-generator.ts:402-440 | the loop collecting a service method's argument names agrees with its specification |
| ClientGenerator.RenderService | tools/src/util/client-generator.ts:387-448 | the loop over a service's methods agrees with its specification |
| ClientGenerator.RenderServices | tools/src/util/client-generator.ts:387-448 | the loop over the services agrees with reading them entry by entry |
| ClientGenerator.GenerateClient | tools/src/util/client-generator.ts:276-479 | generating a client section by section agrees with its specification |
| ClientGenerator.PackageNameOf | tools/src/util/client-generator.ts:499-509 | the package name is lower case and contains "warp": it is the lower-cased warp name when that already contains "warp", otherwise that name followed by "warp" when it ends in '-' and by "-warp" when it does not |
| ClientGenerator.PackageName | tools/src/util/client-generator.ts:499-509 | the steps of the derivation compute exactly `PackageNameOf` of the warp name |
| ClientGenerator.RootPackageVersion | tools/src/util/client-generator.ts:481-486 | the root package's version is a decimal major version followed by ".0.0" |
| ClientGenerator.RootPackageMajor | tools/src/util/client-generator.ts:481-486 | the major version reads back as the warp version |
| ClientGenerator.RelRootPath | tools/src/util/client-generator.ts:527 | the generated package lies under ".stackless/generated-clients/", in a directory named by the lower-cased warp name |
| ClientGenerator.CreateClient | tools/src/util/client-generator.ts:488-553 | creating a client succeeds exactly when the directory exists, the warp has a name and a non-zero version and both the definitions and both client flavours can be generated; the package name is `PackageNameOf` the warp name, the root package carries it with the warp version as major version, and it is an update exactly when the output directory existed |

## Left out

- Sockets, the WebSocket transport and promises: a request and its reply are one step of `River.Platform`, whose answers are arbitrary, so overlapping calls, a socket that closes mid-request and the missing lock in `getRiverClientAsync` are not modelled.
- Garbage collection: each weak reference the data registry holds is a `Registry.WeakRef(target, alive)` whose `alive` flag stands for `deref()` still finding the object, and `Registry.DataRegistry.Collect` plays the collector that clears it; heap cells themselves carry no such flag.
- FlatBuffers byte layouts: wire records are datatypes, and a field the generated reader would return as null is an `Option`. A null entry inside a flatbuffer vector is not modelled.
- JavaScript numbers and dates are unbounded integers and opaque values. Floating point is not modelled.
- Logging, console echo of a call's log lines (client/src/internal/client.ts:64-79), log contexts and random ids are left out, because they do not affect any result.
- `Unsigned.toNumber` (client/src/internal/util/unsigned.ts:25-27) is left out, because it converts to a JavaScript double.
- `Warp.setOptions` and `Warp.getOptions` (client/src/public/warp.ts:325-335) are left out, because they only store and return an options record.
- JSON text, `JSON.parse`, `JSON.stringify` and UTF-8 are parameters (`parse`, `stringify`). Only the shape of the parsed value is modelled.
- The home directory, the file system and the e-mail regular expression are parameters. The model covers the checks around them, but not `AdminKeyFile.write`, `delete`, `exists` or `isLoggedIn`, nor `WarpConfig.fileExists` or `delete`.
- `SERVICE_NOTICES_CHANNEL` and `WARP_CONFIG_FILE_NAME` are parameters, because their values are not part of this model.
- Mustache templates and the text they render are not modelled. The generator is modelled by what it reads from the warp index, in what order, what it refuses and what it exports.
- `createClient` is modelled up to its results and the directory test that makes it an update. The removal, creation and writing of the output directories are not modelled.
- The rest of `executeConnectAsync` after the preflight is not modelled: the admin key, the remote call for the warp index, the deserializer and the closing messages. The preflight, the regenerate command and the package.json update are modelled.
- `path.join` is a plain concatenation with one '/', without normalisation of "." or "..".
- `ToolText.Lower` lower-cases ASCII letters only.
- `Base64.Decode` accepts only canonical padded text. Node's decoder also accepts text without padding and skips characters outside the alphabet, and that leniency is not modelled.
- `WarpConfigs.FromFileObject`: a truthy identity that is not a string is refused as a type error. Node would instead pass some non-string values to its base64 decoder.
- `Connect.UpdatedPackage`: a package whose scripts, dependencies or build script has a type JavaScript would still write to is refused as a type error. This applies, for example, to an array stored as `scripts`.
- `AdminKeys.LooseKeyLength` covers JavaScript's loose `!=` only for a number or the decimal text "256". Other loose equalities with a key length are not modelled.
- Recursion depth in serialisation and deserialisation is a `fuel` parameter. Running out of fuel yields `StackOverflow`, the model of the call stack overflowing; the source has no such limit of its own.
- The resolution queue's fixpoint terminates in the model because every fetch consumes one of the platform's finite scripted replies. The source itself gives no such bound.
- Deleted properties are never sent on save, as in the source (runtime/src/internal/util/serde.ts:267-268, 294-295): the model builds every outbound delta with no deleted names.
- `Client.CallServiceMethod`: the listener trace is stated in terms of the calls the events made and the update notifications. It does not state that exactly one request was sent, because handling the reply can fetch data. It does not restate the decoded return value either; `Client.ReadReturnValue` states that.
- `Client.Finish` does not restate how the return value was decoded; `Client.ReadReturnValue` states it.
- `Client.HandleEvents` states the trace only on success. After a failure it states only that the heap and registries remain well-formed.
- `JsHeap.SetPropNames`: property names are kept in insertion order. JavaScript lists array-index names ("0", "1", ...) first, in ascending order, before the other names; the model does not, so an object with such property names is serialised with its properties in another order than the source's.
- `WarpFacade.GetData` states which snapshot's object is returned (`Sync.Target`) and that it is a live Data object carrying the requested primary key. It does not restate what installing each snapshot did; `Sync.FetchData` states that.
- `WarpFacade.MergeSaved` states what a save reply may contain, that nothing is delivered yet, and the merge of every delta in order, through the chain of stores `UpdateHandling.MergedOne` relates. On a failure it states only that the state stays well-formed.
- `WarpFacade.SaveTo` and `WarpFacade.Absorb` state the trace on success and the well-formedness of the state. The shape of the request is stated by `WarpFacade.Store`.
- `WarpConfigs.ExtName`: the extension of a path is proved only for the pieces used: a name without a dot and the base name of a path below a directory (`WarpConfigs.ExtOfNamedBase`, `WarpConfigs.NoDotNoExt`).

## Findings

| source | as written | input that shows it | evidently intended | confidence | as-written member | corrected member |
|---|---|---|---|---|---|---|
| tools/src/command/connect.ts:131-134 | the check meant to refuse a project without a package.json looks at the project directory a second time | a logged-in user, an existing directory "/p" that holds no package.json, and the warp name "abc": every check passes and the update is aimed at "/p/package.json" | refuse the project unless "/p/package.json" exists | not executed | Connect.PreflightAsWritten, Connect.PreflightMissesPackageJson | Connect.Preflight |
