# swift-asyncapi, modelled in Dafny

This project models the core of swift-asyncapi, a Swift library that builds
AsyncAPI 3.0.0 documents. The model covers:

- the document's value model (`AsyncAPI`, `Info`, `Server`, `Channel`,
  `Operation`, `Message`, `Components`, …). Encoding leaves out absent
  optionals.
- the codec of the Reference Object (`ReferenceOr`). It decodes a bare
  string, then an all-string object holding `$ref`, then the inline value.
- the discriminated codec of the Security Scheme Object.
- the result-builder fold `AsyncAPIDSL.buildBlock` and
  `AsyncAPIBuilder.finish`, with the `Info`, `Server`, `Channel` and
  `Operation` fragments and their copy-and-return setters.
- the channel DSL's `OperationBuilder` class and `ChannelBuilder`,
  including `buildOperations`. It keys the nested operations
  `<channelKey>-<idx>`.
- `ComponentsBuilder`, `Schema` and `Message`.
- `BinderRegistry`, `expandOperations` and the fail-fast `AsyncAPI.bind`
  loop.
- `RuntimeRegistry`'s document slot.

JSON is an abstract datatype (`JsonValue.Json`, with integer numbers and
objects as maps). Decoding errors use Swift's `DecodingError` cases
(`keyNotFound`, `valueNotFound` for null, `typeMismatch`, `dataCorrupted`),
each carrying only the one coding key it concerns.
Swift structs with `mutating` methods and Swift classes become Dafny
classes whose methods update their fields. Copy-and-return fragments become
datatypes with functions. Every loop of the source (`buildBlock`,
`buildOperations`, `expandOperations`, the three loops of `bind`) is a Dafny
loop. Each is proved equal to a specification function, and the properties
are proved about those functions.

Files and modules:

| file | module | models |
|---|---|---|
| wrappers.dfy | Wrappers | `Option` and `Result` |
| json_value.dfy | JsonValue | JSON values, `encodeIfPresent`/`decodeIfPresent` helpers |
| strings.dfy | Strings | string order of `sorted()`, `"\(n)"` for integers |
| reference_or.dfy | References | `ReferenceOr` |
| security_scheme.dfy | SecuritySchemes | `SecurityScheme`, `OAuth2Flows`, `OAuth2Flow` |
| asyncapi.dfy | AsyncAPIModel | the record types, their encoders, `Action` |
| asyncapi_dsl.dfy | AsyncAPIDSL | `buildBlock`, `AsyncAPIBuilder`, the four fragments |
| channel_dsl.dfy | ChannelDSL | `OperationBuilder`, `ChannelBuilder` |
| component_builders.dfy | ComponentBuilders | `ComponentsBuilder`, `Schema`, `Message` |
| fail_fast.dfy | FailFast | calls made in order until the first one throws |
| transport_bindings.dfy | TransportBindings | `BinderRegistry`, `expandOperations`, `bind` |
| runtime_registry.dfy | RuntimeRegistries | `RuntimeRegistry` |

Behaviour of the code that is easy to misread (the model follows the
code):

- `buildBlock` assigns every declared `Info`, whatever its title. There
  is no empty-title sentinel, so the last declared `Info` wins
  (Sources/AsyncAPIBuilder/AsyncAPIDSL.swift:11-12).
- In `bind`, a throwing binder call propagates out of all three loops.
  The first error therefore ends the whole call, remaining servers
  included, not only the current server's pass
  (Sources/AsyncAPIBuilder/TransportBindings.swift:93-98).
- The encoder's `switch` names `.X509` and `.HTTPSecurityScheme`, which
  are not declared cases. The model uses the declared cases `x509` and
  `httpSecurityScheme`, with the tag strings `"X509"` and `"http"` as
  written.
- `Tag`'s description is spelled `descrtion`, and so is its JSON key. The
  model keeps that key.

## Model

| member | source | states |
|---|---|---|
| References.ChannelRef | Sources/AsyncAPIBuilder/AsyncAPIDSL.swift:290 | `#/channels/` plus the key by plain concatenation: the key is recovered unchanged after the 11-character prefix |
| References.DecodeBareString | Sources/AsyncAPIGenerator/ReferenceOr.swift:9-10 | a bare JSON string decodes to `reference` of it, whatever the value decoder would do |
| References.DecodeRefObject | Sources/AsyncAPIGenerator/ReferenceOr.swift:11-14 | an all-string object with `$ref` decodes to `reference` of that entry |
| References.DecodeFallsThrough | Sources/AsyncAPIGenerator/ReferenceOr.swift:15-17 | any other input gives the value decoder's result, as a value or as its error |
| References.DecodeFailsOnlyThroughValue | Sources/AsyncAPIGenerator/ReferenceOr.swift:9-18 | decoding fails exactly when the input is neither reference shape and the value decoder fails, and then with that decoder's error |
| References.EncodeReferenceShape | Sources/AsyncAPIGenerator/ReferenceOr.swift:24-25 | a reference encodes to the single-key object `{"$ref": r}` |
| References.EncodeValueUnchanged | Sources/AsyncAPIGenerator/ReferenceOr.swift:26-27 | a value encodes to the value's own encoding |
| References.ReferenceRoundTrip | Sources/AsyncAPIGenerator/ReferenceOr.swift:9-25 | every reference round-trips |
| References.ValueRoundTrip | Sources/AsyncAPIGenerator/ReferenceOr.swift:9-27 | a value round-trips if and only if its encoding is not a string, is not a `$ref`-bearing all-string object, and the value codec round-trips it |
| References.RoundTrip | Sources/AsyncAPIGenerator/ReferenceOr.swift:7-29 | under those side conditions every reference-or-value round-trips |
| JsonValue.DecodeString | Sources/AsyncAPIGenerator/AsyncAPI.swift:682 | `decode(String.self, forKey:)` succeeds exactly on a present string, giving it; a missing key fails with `keyNotFound`, null with `valueNotFound` and any other value with `typeMismatch`, each on the key |
| JsonValue.Container | Sources/AsyncAPIGenerator/AsyncAPI.swift:681 | `container(keyedBy:)` succeeds exactly on an object, giving its entries; null fails with `valueNotFound`, any other value with `typeMismatch` |
| JsonValue.DecodeStringIfPresent | Sources/AsyncAPIGenerator/AsyncAPI.swift:683 | `decodeIfPresent(String.self, forKey:)`: a missing key or null gives none, a string gives that string, and any other value, and only such a value, fails with `typeMismatch` on the key |
| JsonValue.DecodeIfPresent | Sources/AsyncAPIGenerator/AsyncAPI.swift:771-792 | `decodeIfPresent` of a nested value: a missing key or null gives none; otherwise it succeeds exactly when the nested decoder does, with its value, or fails with its error |
| JsonValue.DecodeArray | Sources/AsyncAPIGenerator/AsyncAPI.swift:157-176 | an array decodes exactly when every element does; element i is what the element decoder gives for item i, and a failure is the error of the first failing element |
| JsonValue.ArrayRoundTrip | Sources/AsyncAPIGenerator/AsyncAPI.swift:157-176 | an array of elements whose codec round-trips round-trips |
| JsonValue.Put | Sources/AsyncAPIGenerator/AsyncAPI.swift:732 | `encodeIfPresent` on a container: the key is written only when the value is present, and other keys are kept |
| SecuritySchemes.FlowRoundTrip | Sources/AsyncAPIGenerator/AsyncAPI.swift:795-816 | an OAuth2 flow (three optional URLs, required scopes) round-trips |
| SecuritySchemes.FlowsRoundTrip | Sources/AsyncAPIGenerator/AsyncAPI.swift:771-792 | the four optional flows round-trip |
| SecuritySchemes.CommonFields | Sources/AsyncAPIGenerator/AsyncAPI.swift:731-765 | every case writes `type` as its discriminator and writes `description` only when present |
| SecuritySchemes.Encode | Sources/AsyncAPIGenerator/AsyncAPI.swift:726-767 | the encoding is an object whose `type` is the discriminator and whose `description` appears exactly when present |
| SecuritySchemes.DiscriminatorsAgree | Sources/AsyncAPIGenerator/AsyncAPI.swift:686-762 | each non-SASL encoder writes a tag the decoder recognises, and different variants write different tags (`"X509"`, `"http"`, …) |
| SecuritySchemes.UnknownTypeFails | Sources/AsyncAPIGenerator/AsyncAPI.swift:717-722 | a `type` outside the recognised set fails, with `dataCorrupted` on `type` when the description decodes |
| SecuritySchemes.SaslTagsDecode | Sources/AsyncAPIGenerator/AsyncAPI.swift:715-716 | `scramSha256`, `scramSha512`, `plain` and `gssapi` decode to the SASL case keeping the tag |
| SecuritySchemes.MissingRequiredFieldFails | Sources/AsyncAPIGenerator/AsyncAPI.swift:687-713 | a missing `scheme`, `name`, `in`, `flows` or `openIdConnectUrl` makes its variant fail with `keyNotFound` on that field |
| SecuritySchemes.NullIsValueNotFound | Sources/AsyncAPIGenerator/AsyncAPI.swift:681-712 | a null scheme, a null `flows` of an `oauth2` scheme and a null `scopes` fail with `valueNotFound` |
| SecuritySchemes.AbsentOptionalsOmitted | Sources/AsyncAPIGenerator/AsyncAPI.swift:701-708 | an absent description or bearer format is not written and decodes back to none |
| SecuritySchemes.RoundTrip | Sources/AsyncAPIGenerator/AsyncAPI.swift:680-767 | decode(encode(s)) == s if and only if `s` is not SASL or its stored type is one of the four SASL tags |
| SecuritySchemes.SaslOutsideTagsDoesNotRoundTrip | Sources/AsyncAPIGenerator/AsyncAPI.swift:715-764 | a SASL scheme with any other stored type string is written back as that string and never decodes to itself |
| AsyncAPIModel.DecodeAction | Sources/AsyncAPIGenerator/AsyncAPI.swift:400-403 | only the raw values `"send"` and `"receive"` decode; another string fails with `dataCorrupted`, null with `valueNotFound`, any other value with `typeMismatch` |
| AsyncAPIModel.ActionRoundTrip | Sources/AsyncAPIGenerator/AsyncAPI.swift:400-403 | both actions round-trip through their raw values |
| AsyncAPIModel.BareStringValueBecomesReference | Sources/AsyncAPIGenerator/ReferenceOr.swift:9-27 | for every action, an inline value (encoded as a bare string) comes back as a reference to its raw value and so never as itself, although the action alone round-trips |
| AsyncAPIModel.MinimalDocumentEncoding | Sources/AsyncAPIGenerator/AsyncAPI.swift:3-26 | a document with only `asyncapi` and `info` set encodes to exactly those two keys, its info to `title` and `version` |
| AsyncAPIModel.InfoEncodingKeys | Sources/AsyncAPIGenerator/AsyncAPI.swift:78-122 | an Info writes `title` and `version` always and each optional member exactly when it is present |
| AsyncAPIModel.ServerEncodingKeys | Sources/AsyncAPIGenerator/AsyncAPI.swift:193-257 | a server writes `host` and `protocol` always and each optional member exactly when it is present |
| AsyncAPIModel.ChannelEncodingKeys | Sources/AsyncAPIGenerator/AsyncAPI.swift:297-342 | a channel writes each of its members, all optional, exactly when it is present |
| AsyncAPIModel.OperationEncodingKeys | Sources/AsyncAPIGenerator/AsyncAPI.swift:345-398 | an operation writes `action` and `channel` always and each optional member exactly when it is present |
| AsyncAPIModel.MessageEncodingKeys | Sources/AsyncAPIGenerator/AsyncAPI.swift:513-566 | a message writes each of its members, all optional, exactly when it is present |
| AsyncAPIModel.DocumentEncodingKeys | Sources/AsyncAPIGenerator/AsyncAPI.swift:3-26 | a document writes `asyncapi` and `info` always and each optional member exactly when it is present |
| AsyncAPIModel.ExternalDocRoundTrip | Sources/AsyncAPIGenerator/AsyncAPI.swift:179-190 | an external doc round-trips |
| AsyncAPIModel.RefExternalDocRoundTrip | Sources/AsyncAPIGenerator/AsyncAPI.swift:165-190 | a reference-or-external-doc round-trips |
| AsyncAPIModel.TagRoundTrip | Sources/AsyncAPIGenerator/AsyncAPI.swift:157-176 | a tag (key `descrtion`, list of reference-or-external-docs) round-trips |
| AsyncAPIDSL.InfoFragment.WithDescription | Sources/AsyncAPIBuilder/AsyncAPIDSL.swift:110-114 | the copy finishes like the original with only the description set |
| AsyncAPIDSL.InfoFragment.WithTags | Sources/AsyncAPIBuilder/AsyncAPIDSL.swift:116-120 | the copy finishes like the original with only the tags set |
| AsyncAPIDSL.NewInfoFinish | Sources/AsyncAPIBuilder/AsyncAPIDSL.swift:105-129 | a fresh `Info` finishes to its title and version with every optional absent |
| AsyncAPIDSL.ServerFragment.WithProtocol | Sources/AsyncAPIBuilder/AsyncAPIDSL.swift:144-148 | the copy keeps the key and finishes with only the protocol changed |
| AsyncAPIDSL.ServerFragment.WithDescription | Sources/AsyncAPIBuilder/AsyncAPIDSL.swift:150-154 | the copy keeps the key and finishes with only the description changed |
| AsyncAPIDSL.ServerFragment.Finish | Sources/AsyncAPIBuilder/AsyncAPIDSL.swift:156-162 | host is the url, protocol is the set one or `wss`, and every other server field is absent |
| AsyncAPIDSL.ServerProtocol | Sources/AsyncAPIBuilder/AsyncAPIDSL.swift:139-162 | the finished protocol is `wss` when none was set, and otherwise the last one set, whatever was set before |
| AsyncAPIDSL.ChannelFragment.Finish | Sources/AsyncAPIBuilder/AsyncAPIDSL.swift:175-179 | only the address is written |
| AsyncAPIDSL.ValuesOf | Sources/AsyncAPIBuilder/AsyncAPIDSL.swift:217-235 | `.map { .value($0) }` keeps length and order, wrapping each element as a value |
| AsyncAPIDSL.RefsOf | Sources/AsyncAPIBuilder/AsyncAPIDSL.swift:223-241 | `.map { .reference($0) }` keeps length and order, wrapping each string as a reference |
| AsyncAPIDSL.OperationFragment.WithChannel | Sources/AsyncAPIBuilder/AsyncAPIDSL.swift:203-207 | the copy keeps the key and finishes with the channel as an inline value |
| AsyncAPIDSL.OperationFragment.WithChannelRef | Sources/AsyncAPIBuilder/AsyncAPIDSL.swift:209-213 | the copy keeps the key and finishes with the channel as that reference |
| AsyncAPIDSL.OperationFragment.WithMessages | Sources/AsyncAPIBuilder/AsyncAPIDSL.swift:215-219 | the messages become values, nothing else changes |
| AsyncAPIDSL.OperationFragment.WithMessageRefs | Sources/AsyncAPIBuilder/AsyncAPIDSL.swift:221-225 | the messages become references, nothing else changes |
| AsyncAPIDSL.OperationFragment.WithReply | Sources/AsyncAPIBuilder/AsyncAPIDSL.swift:227-231 | only the reply changes |
| AsyncAPIDSL.OperationFragment.WithTraits | Sources/AsyncAPIBuilder/AsyncAPIDSL.swift:233-237 | the traits become values, nothing else changes |
| AsyncAPIDSL.OperationFragment.WithTraitRefs | Sources/AsyncAPIBuilder/AsyncAPIDSL.swift:239-243 | the traits become references, nothing else changes |
| AsyncAPIDSL.OperationFragment.WithTitle | Sources/AsyncAPIBuilder/AsyncAPIDSL.swift:245-249 | only the title changes |
| AsyncAPIDSL.OperationFragment.WithSummary | Sources/AsyncAPIBuilder/AsyncAPIDSL.swift:251-255 | only the summary changes |
| AsyncAPIDSL.OperationFragment.WithDescription | Sources/AsyncAPIBuilder/AsyncAPIDSL.swift:257-261 | only the description changes |
| AsyncAPIDSL.OperationFragment.WithSecurity | Sources/AsyncAPIBuilder/AsyncAPIDSL.swift:263-267 | only the security requirements change |
| AsyncAPIDSL.OperationFragment.WithTags | Sources/AsyncAPIBuilder/AsyncAPIDSL.swift:269-273 | only the tags change |
| AsyncAPIDSL.OperationFragment.WithExternalDocs | Sources/AsyncAPIBuilder/AsyncAPIDSL.swift:275-279 | only the external docs change |
| AsyncAPIDSL.OperationFragment.WithBindings | Sources/AsyncAPIBuilder/AsyncAPIDSL.swift:281-285 | only the bindings change |
| AsyncAPIDSL.NewOperationFinish | Sources/AsyncAPIBuilder/AsyncAPIDSL.swift:198-302 | a fresh operation finishes with its action, a reference to `#/channels/<key>`, and nothing else |
| AsyncAPIDSL.LastChannelWins | Sources/AsyncAPIBuilder/AsyncAPIDSL.swift:203-290 | the last channel setter decides the channel; none set gives `#/channels/<key>` |
| AsyncAPIDSL.DocumentBuilder.WithId | Sources/AsyncAPIBuilder/AsyncAPIDSL.swift:72-76 | only the id changes |
| AsyncAPIDSL.DocumentBuilder.WithDefaultContentType | Sources/AsyncAPIBuilder/AsyncAPIDSL.swift:78-82 | only the default content type changes |
| AsyncAPIDSL.DocumentBuilder.Finish | Sources/AsyncAPIBuilder/AsyncAPIDSL.swift:84-95 | empty servers, channels and operations become absent, non-empty ones pass through, and scalars are copied |
| AsyncAPIDSL.BuildBlock | Sources/AsyncAPIBuilder/AsyncAPIDSL.swift:6-23 | the loop's result is the finished left-to-right fold of the components |
| AsyncAPIDSL.UpsertsKeys | Sources/AsyncAPIBuilder/AsyncAPIDSL.swift:13-18 | the keys after the upserts are the starting keys plus exactly the declared ones |
| AsyncAPIDSL.UpsertsLastWins | Sources/AsyncAPIBuilder/AsyncAPIDSL.swift:9-20 | the last element declaring a key decides its value |
| AsyncAPIDSL.UpsertsUntouched | Sources/AsyncAPIBuilder/AsyncAPIDSL.swift:13-18 | a key nothing declares keeps its value |
| AsyncAPIDSL.LastInfoSpec | Sources/AsyncAPIBuilder/AsyncAPIDSL.swift:11-12 | with no info declared the start is kept, otherwise the last declared info wins |
| AsyncAPIDSL.FoldKeyed | Sources/AsyncAPIBuilder/AsyncAPIDSL.swift:9-20 | each keyed map after the fold is the upsert of that kind's entries alone |
| AsyncAPIDSL.FoldInfo | Sources/AsyncAPIBuilder/AsyncAPIDSL.swift:9-20 | the fold sets info to the last declared one and changes no other scalar |
| AsyncAPIDSL.FinishedUpserts | Sources/AsyncAPIBuilder/AsyncAPIDSL.swift:89-92 | a finished upsert map is absent exactly when nothing was declared, else has exactly the declared keys and the last declarations' values |
| AsyncAPIDSL.DocumentServers | Sources/AsyncAPIBuilder/AsyncAPIDSL.swift:13-89 | the document's servers: absent iff none declared, exactly the declared keys, last declaration wins |
| AsyncAPIDSL.DocumentChannels | Sources/AsyncAPIBuilder/AsyncAPIDSL.swift:15-91 | the same for channels |
| AsyncAPIDSL.DocumentOperations | Sources/AsyncAPIBuilder/AsyncAPIDSL.swift:17-92 | the same for operations |
| AsyncAPIDSL.DocumentInfo | Sources/AsyncAPIBuilder/AsyncAPIDSL.swift:67-70 | version `3.0.0`, no id, content type or components; info is the last declared one or title `""` and version `""` |
| ChannelDSL.OperationBuilder.constructor | Sources/AsyncAPIBuilder/ChannelDSL.swift:15-19 | a new builder has its action and payload type and no optionals |
| ChannelDSL.OperationBuilder.Summary | Sources/AsyncAPIBuilder/ChannelDSL.swift:22 | sets the summary in place and returns the same object |
| ChannelDSL.OperationBuilder.Description | Sources/AsyncAPIBuilder/ChannelDSL.swift:25 | sets the description in place and returns the same object |
| ChannelDSL.OperationBuilder.Tags | Sources/AsyncAPIBuilder/ChannelDSL.swift:28 | sets the tags in place and returns the same object |
| ChannelDSL.OperationBuilder.ExternalDocs | Sources/AsyncAPIBuilder/ChannelDSL.swift:31 | sets the external docs in place and returns the same object |
| ChannelDSL.OperationBuilder.Bindings | Sources/AsyncAPIBuilder/ChannelDSL.swift:34 | sets the bindings in place and returns the same object |
| ChannelDSL.ChannelBuilder.constructor | Sources/AsyncAPIBuilder/ChannelDSL.swift:39-50 | a new channel builder has its address, no parameters, no operations, no optionals |
| ChannelDSL.ChannelBuilder.Parameter | Sources/AsyncAPIBuilder/ChannelDSL.swift:53-56 | sets or overwrites only `parameters[name]` |
| ChannelDSL.ChannelBuilder.Subscribe | Sources/AsyncAPIBuilder/ChannelDSL.swift:59-70 | appends exactly one new `receive` builder and returns that object |
| ChannelDSL.ChannelBuilder.Publish | Sources/AsyncAPIBuilder/ChannelDSL.swift:73-85 | appends exactly one new `send` builder and returns that object |
| ChannelDSL.ChannelBuilder.Summary | Sources/AsyncAPIBuilder/ChannelDSL.swift:88 | only the summary changes |
| ChannelDSL.ChannelBuilder.Description | Sources/AsyncAPIBuilder/ChannelDSL.swift:91 | only the description changes |
| ChannelDSL.ChannelBuilder.Tags | Sources/AsyncAPIBuilder/ChannelDSL.swift:94 | only the tags change |
| ChannelDSL.ChannelBuilder.ExternalDocs | Sources/AsyncAPIBuilder/ChannelDSL.swift:97 | only the external docs change |
| ChannelDSL.ChannelBuilder.Bindings | Sources/AsyncAPIBuilder/ChannelDSL.swift:100 | only the bindings change |
| ChannelDSL.ChannelBuilder.Finish | Sources/AsyncAPIBuilder/ChannelDSL.swift:102-111 | address, summary, description, tags, external docs and bindings are written; parameters and operations never are |
| ChannelDSL.ChannelBuilder.BuildOperations | Sources/AsyncAPIBuilder/ChannelDSL.swift:113-142 | the loop's map and registrations are those of the nested builders' current declarations, in order |
| ChannelDSL.ToOperation | Sources/AsyncAPIBuilder/ChannelDSL.swift:117-130 | an expanded operation has its builder's action, a reference to `#/channels/<channelKey>`, the five copied optionals, and nothing else |
| ChannelDSL.Registrations | Sources/AsyncAPIBuilder/ChannelDSL.swift:132-138 | one registration per nested operation, under its key, with its action and payload type |
| ChannelDSL.OperationKeyInjective | Sources/AsyncAPIBuilder/ChannelDSL.swift:116 | different indices give different keys `<channelKey>-<idx>` |
| ChannelDSL.ExpandSpec | Sources/AsyncAPIBuilder/ChannelDSL.swift:115-131 | the keys are exactly `<channelKey>-0` … `<channelKey>-(n-1)`, each holding its declaration's operation |
| ChannelDSL.ExpandSize | Sources/AsyncAPIBuilder/ChannelDSL.swift:115-131 | there are as many operations as nested builders |
| ChannelDSL.SubscribeWithSummary | Sources/AsyncAPIBuilder/ChannelDSL.swift:22-69 | a setter called on the returned builder shows up in the channel's operation list |
| Strings.SortedKeysSpec | Sources/AsyncAPIBuilder/TransportBindings.swift:78 | `sorted()` lists each key exactly once, in strictly ascending order |
| Strings.NatToStringInjective | Sources/AsyncAPIBuilder/ChannelDSL.swift:116 | different indices render to different decimal strings |
| ComponentBuilders.SchemaFragment.WithValue | Sources/AsyncAPIBuilder/ComponentBuilders.swift:40-52 | the copy keeps its key and finishes to the new value |
| ComponentBuilders.NewSchema | Sources/AsyncAPIBuilder/ComponentBuilders.swift:30-33 | a schema defaults to the empty JSON object |
| ComponentBuilders.MessageFragment.WithName | Sources/AsyncAPIBuilder/ComponentBuilders.swift:84-88 | only the name changes |
| ComponentBuilders.MessageFragment.WithContentType | Sources/AsyncAPIBuilder/ComponentBuilders.swift:90-94 | only the content type changes |
| ComponentBuilders.MessageFragment.WithHeaders | Sources/AsyncAPIBuilder/ComponentBuilders.swift:96-100 | only the headers change |
| ComponentBuilders.MessageFragment.WithPayload | Sources/AsyncAPIBuilder/ComponentBuilders.swift:113-117 | only the payload changes |
| ComponentBuilders.MessageFragment.WithCorrelationId | Sources/AsyncAPIBuilder/ComponentBuilders.swift:130-134 | only the correlation id changes |
| ComponentBuilders.MessageFragment.WithTitle | Sources/AsyncAPIBuilder/ComponentBuilders.swift:136-140 | only the title changes |
| ComponentBuilders.MessageFragment.WithSummary | Sources/AsyncAPIBuilder/ComponentBuilders.swift:142-146 | only the summary changes |
| ComponentBuilders.MessageFragment.WithDescription | Sources/AsyncAPIBuilder/ComponentBuilders.swift:148-152 | only the description changes |
| ComponentBuilders.MessageFragment.WithTags | Sources/AsyncAPIBuilder/ComponentBuilders.swift:154-158 | only the tags change |
| ComponentBuilders.MessageFragment.WithExternalDocs | Sources/AsyncAPIBuilder/ComponentBuilders.swift:160-164 | only the external docs change |
| ComponentBuilders.MessageFragment.WithBindings | Sources/AsyncAPIBuilder/ComponentBuilders.swift:166-170 | only the bindings change |
| ComponentBuilders.MessageFragment.WithExamples | Sources/AsyncAPIBuilder/ComponentBuilders.swift:172-176 | only the examples change |
| ComponentBuilders.NewMessage | Sources/AsyncAPIBuilder/ComponentBuilders.swift:82 | a fresh message finishes with every field absent |
| ComponentBuilders.MessageFinishRoundTrip | Sources/AsyncAPIBuilder/ComponentBuilders.swift:178-193 | `finish` copies all twelve fields: the fragment is recovered from its message, and every message is some fragment's finish |
| ComponentBuilders.ComponentsBuilder.constructor | Sources/AsyncAPIBuilder/ComponentBuilders.swift:5-7 | both maps start empty |
| ComponentBuilders.ComponentsBuilder.AddSchema | Sources/AsyncAPIBuilder/ComponentBuilders.swift:9-11 | writes `schemas[key]`, overwriting, and leaves `messages` alone |
| ComponentBuilders.ComponentsBuilder.AddMessage | Sources/AsyncAPIBuilder/ComponentBuilders.swift:13-15 | writes `messages[key]`, overwriting, and leaves `schemas` alone |
| ComponentBuilders.ComponentsBuilder.Finish | Sources/AsyncAPIBuilder/ComponentBuilders.swift:17-23 | none exactly when both maps are empty; otherwise empty maps become absent, non-empty ones pass through, all other kinds absent |
| ComponentBuilders.SchemaAndMessage | Sources/AsyncAPIBuilder/ComponentBuilders.swift:9-23 | adding one schema and one message finishes to components holding both |
| TransportBindings.WithDefaults | Sources/AsyncAPIBuilder/TransportBindings.swift:29-33 | the defaults add exactly `ws`, `http` and `kafka`, with their binders, and keep every other entry |
| TransportBindings.BinderRegistry.constructor | Sources/AsyncAPIBuilder/TransportBindings.swift:18-19 | the registry starts empty |
| TransportBindings.BinderRegistry.BinderFor | Sources/AsyncAPIBuilder/TransportBindings.swift:25-27 | a binder exactly for registered protocols, the registered one |
| TransportBindings.BinderRegistry.Register | Sources/AsyncAPIBuilder/TransportBindings.swift:21-23 | afterwards the protocol gives the binder, and every other protocol what it gave before |
| TransportBindings.BinderRegistry.RegisterDefaults | Sources/AsyncAPIBuilder/TransportBindings.swift:29-33 | overwrites exactly the three default protocols |
| TransportBindings.LeastOf | Sources/AsyncAPIBuilder/TransportBindings.swift:78 | finds the least key of a non-empty set |
| TransportBindings.SortKeys | Sources/AsyncAPIBuilder/TransportBindings.swift:78 | the loop produces the sorted key list |
| TransportBindings.ExpandOperations | Sources/AsyncAPIBuilder/TransportBindings.swift:72-88 | the loop returns the specified expansion, empty without operations |
| TransportBindings.SelectSpec | Sources/AsyncAPIBuilder/TransportBindings.swift:78-86 | each kept entry is the operation of its kept key |
| TransportBindings.SelectedKeysMembers | Sources/AsyncAPIBuilder/TransportBindings.swift:80-85 | a key is kept exactly when it names an operation that matches the channel |
| TransportBindings.SelectedKeysAscending | Sources/AsyncAPIBuilder/TransportBindings.swift:78 | kept keys keep their ascending order |
| TransportBindings.ExpandedSpec | Sources/AsyncAPIBuilder/TransportBindings.swift:72-88 | empty without operations; otherwise the operations of exactly the matching keys, one each, in ascending key order |
| TransportBindings.MatchesCases | Sources/AsyncAPIBuilder/TransportBindings.swift:80-85 | a reference matches exactly `"#/channels/" + (address ?? "")`, on the address and not the key; an inline channel matches on equal addresses, both absent counting as equal |
| TransportBindings.OperationCalls | Sources/AsyncAPIBuilder/TransportBindings.swift:97-98 | one call per expanded operation, in order |
| TransportBindings.Lookup | Sources/AsyncAPIBuilder/TransportBindings.swift:93-96 | the values under the given key order |
| TransportBindings.BindChannel | Sources/AsyncAPIBuilder/TransportBindings.swift:97-99 | the innermost loop makes the calls of the expanded operations until the first throws |
| TransportBindings.BindServer | Sources/AsyncAPIBuilder/TransportBindings.swift:96-100 | the channel loop makes each channel's calls in turn until the first throws |
| TransportBindings.BindServers | Sources/AsyncAPIBuilder/TransportBindings.swift:93-102 | the server loop skips servers without a binder and makes the others' calls until the first throws |
| TransportBindings.Bind | Sources/AsyncAPIBuilder/TransportBindings.swift:91-103 | registers the defaults, then makes the calls of every bound server × channel × expanded operation in order, stopping at the first error |
| FailFast.RunSpec | Sources/AsyncAPIBuilder/TransportBindings.swift:98 | with no throwing call every call is made; otherwise the calls up to the first throwing one are made and it is the failure |
| FailFast.ContinueBlock | Sources/AsyncAPIBuilder/TransportBindings.swift:93-102 | a nested loop's block of calls either ends the run within it or is made in full before the rest |
| RuntimeRegistries.RuntimeRegistry.constructor | Sources/AsyncAPIBuilder/RuntimeRegistry.swift:5-7 | a fresh registry holds no document |
| RuntimeRegistries.RuntimeRegistry.SetDocument | Sources/AsyncAPIBuilder/RuntimeRegistry.swift:9-11 | the slot holds exactly the new document, whatever it held before |
| RuntimeRegistries.RuntimeRegistry.GetDocument | Sources/AsyncAPIBuilder/RuntimeRegistry.swift:13-15 | returns the slot's content and changes nothing |
| RuntimeRegistries.LastWriteWins | Sources/AsyncAPIBuilder/RuntimeRegistry.swift:7-15 | a fresh registry reads none; after two writes a read sees the later one |

## Left out

- Type-erased handlers (`Any`, `Any.Type`, the wrapping closures and their casts) have no logic to prove. An operation builder keeps only its action and a payload type name (Sources/AsyncAPIBuilder/ChannelDSL.swift:7-8,63-66,77-81).
- The `Task` that registers each operation with the runtime registry is concurrent, and `registerOperation` is not part of this model. `BuildOperations` returns the registrations it would make as a list instead (Sources/AsyncAPIBuilder/ChannelDSL.swift:132-139).
- Actor isolation, `async`, and the shared singletons of `BinderRegistry` and `RuntimeRegistry` are left out. Both are sequential objects, and `Bind` takes its registry as a parameter.
- The binder stubs and their `bind` bodies are external transports. A binder is an identity, and whether a call throws is the parameter `fails`.
- The iteration order of the server and channel dictionaries in `bind` is unspecified. It is the parameters `serverKeys` and `channelKeys`.
- `Bind`: the trace of calls made stands in for their side effects, and the thrown error is the failing call.
- Swift's `String` ordering, `==` and dictionary keys use Unicode canonical equivalence; the model compares character codes everywhere (`Strings.Less`, and equality in the upserts of `BuildBlock`, the `ComponentsBuilder` maps, `ChannelBuilder.Parameter`, the `$ref` comparison in `Matches` and the `type` switch of `SecuritySchemes.DecodeVariant`). The two agree on NFC-normalised strings, ASCII included; `"\u{e9}"` and `"e\u{301}"` are one key in Swift and two in the model.
- Decoding errors carry one key, not Swift's full coding path: an error from a nested container or array element names `""` or the innermost key. A null or non-string value inside the `scopes` map reports `typeMismatch` on `scopes`, where Swift reports the entry's own key (and `valueNotFound` for null).
- JSON text and YAML output (`JSONEncoder`, Yams), key order in output, and floating-point numbers are left out. JSON numbers are integers.
- `JSONSchemaBuilder` and `Schemable` overloads of `Schema` and `Message` are foreign code (Sources/AsyncAPIBuilder/ComponentBuilders.swift:35-38,46-50,61-64,102-111,119-128,196-208).
- Decoders exist only for `ReferenceOr`, `SecurityScheme`, `OAuth2Flows`, `OAuth2Flow`, `Action`, `Tag` and `ExternalDoc`. The other records are modelled through their encoders; their synthesized decoders are not modelled.
- `ChannelDSL.ChannelBuilder.Parameter` and the other `ChannelBuilder` setters do not return the `Self` copy that Swift returns; the copy's use is discardable.
- `ChannelBuilder` and `ComponentsBuilder` are Swift structs, so a copy of one is independent of the original; the Dafny classes are shared by reference. Nothing in the modelled code copies a builder, so no contract depends on the difference, but aliasing of builders is not captured.
- The closure-form `Channel` DSL and Schema/Message inside `buildBlock` appear only in tests and are not defined by the modelled sources.
