# elefren, modelled in Dafny

elefren is a Rust client for the Mastodon API. This project models three parts of it and proves what they promise.

1. **The pagination cursor.** This covers `Page` and `OwnedPage` of the blocking client and the `Page` of the asynchronous client. A page keeps the `next` and `prev` targets it read from the `Link` header of the last response (section 3 of RFC 8288). `next_page` and `prev_page` take the slot for their direction, fetch it, and then overwrite both slots from the new response. Both page types are Dafny classes. Each mutating method carries a ghost log of what it fetched and is proved against a pure function of the old cursor: `Pages.PageTurn` or `AsyncPages.PageTurn`. The loop of `get_links` is a method proved against `LinkHeaders.ScanFrom`.
2. **The request builders.** This covers statuses, directory, push, update-credentials and filter requests, the status builder, `App`/`AppBuilder` and `Scopes`. It also covers the query strings and JSON bodies they serialise to. Each serialisation has a reader beside it, and a round-trip lemma shows that the reader gets the request back.
3. **URL composition and error classification.** This covers:
   - the blocking client's routes, including the `relationships` loop and its final `pop`;
   - the asynchronous client's timelines, directory and trends;
   - the OAuth authorise and token URLs (sections 4.1.1 and 4.1.3 of RFC 6749);
   - the status-class dispatch before decoding;
   - `Error::description` and the `From` conversions;
   - the lenient `string_or_bool` decoder;
   - the multipart form of `CredentialsBuilder`.

Some things are parameters and are never computed by the model:
- the transport;
- authentication;
- `Url::parse` and `Url::join`;
- the canonical reason phrases of status codes;
- file reading.

The Link header is given already split into link-values. Query strings are modelled as `key=value` pairs joined by `&`. Their round-trip lemmas assume values made of unreserved characters, which need no percent-encoding.

Where the source has a defect recorded under Findings, the entry points (`public_timeline`, `trends`, `update_credentials` and the rest) follow the source as written. The corrected definition stands beside each one, with the property it was meant to have proved about it.

## Model

| member | source | states |
|---|---|---|
| LinkHeaders.LinksOf | src/page.rs:200-222 | No `Link` header gives `(None, None)`. A header that is not text is a `HeaderStrError`, and one that does not tokenise is a `HeaderParseError`. |
| LinkHeaders.AsyncLinksOf | src/async/page.rs:73-95 | The asynchronous `get_links`: no header gives no links, and an untokenisable header is a `HeaderParseError`. |
| LinkHeaders.AsyncAgreesWithBlocking | src/async/page.rs:73-95 | The asynchronous client reads a header exactly as the blocking one reads the same header given as text. |
| LinkHeaders.ScanValues | src/page.rs:208-219 | The loop over the link-values computes the recursive specification `ScanFrom` from `(None, None)`. |
| LinkHeaders.GetLinks | src/page.rs:200-222 | `get_links` of the blocking client equals `LinksOf`. |
| LinkHeaders.AsyncGetLinks | src/async/page.rs:73-95 | `get_links` of the asynchronous client equals `AsyncLinksOf`. |
| LinkHeaders.ScanOutcome | src/page.rs:208-219 | The loop fails exactly when some `next`/`prev` value has a URL that does not parse, and then with the first such URL's error. Otherwise each slot holds the URL of the last value carrying its relation, or keeps its starting value. |
| LinkHeaders.UnrecognisedIgnored | src/page.rs:209 | A link-value without `rel`, or whose relations are neither `next` nor `prev`, can be inserted anywhere without changing the outcome. |
| LinkHeaders.BothRelations | src/page.rs:210-217 | A final value carrying both `next` and `prev`, with a valid URL, sets both slots to that URL. |
| Pages.Take | src/page.rs:15-18 | `take` empties the requested slot and leaves the other as it was. |
| Pages.PageTurn | src/page.rs:14-28 | A turn fetches exactly the URL in its slot. An empty slot returns `Ok(None)`, fetches nothing and leaves the cursor unchanged. |
| Pages.FailedTurnTakesSlot | src/page.rs:15-24 | When the send or the link reading fails, the call fails, its slot stays empty and the other slot is unchanged. |
| Pages.LinkedTurnOverwrites | src/page.rs:24-28 | Once the links are read, both slots come from the new response, whatever the old cursor held, and the result is the decoded body. |
| Pages.NoHeaderEnds | src/page.rs:24-26 | A response without a `Link` header leaves both slots empty. |
| Pages.ExhaustedIsTerminal | src/page.rs:14-18 | Every later turn on an empty cursor returns `Ok(None)`, fetches nothing and leaves the cursor empty. |
| Pages.NewPage | src/page.rs:110-118 | `Page::new` reads the links before decoding. A link error wins over a decode error, and a page is built exactly when both succeed, carrying those links and items. |
| Pages.Page.Make | src/page.rs:94-102 | A page holds the given cursor, items and ownership and has fetched nothing. |
| Pages.Page.New | src/page.rs:110-118 | The page built from a response matches `NewPage`, or the call fails with its error. |
| Pages.Page.IntoOwned | src/page.rs:83-92 | `OwnedPage::from` copies `next`, `prev` and the initial items verbatim into a new owned page. |
| Pages.Page.Advance | src/page.rs:14-28 | The page's new cursor, result and fetch log are those of `PageTurn` from the old cursor, and the initial items are untouched. |
| Pages.Page.NextPage | src/page.rs:8-32 | `next_page` is `PageTurn` in the `next` direction. |
| Pages.Page.PrevPage | src/page.rs:8-32 | `prev_page` is `PageTurn` in the `prev` direction. |
| AsyncPages.Take | src/async/page.rs:37-53 | `take` empties the requested slot and leaves the other as it was. |
| AsyncPages.FillLinks | src/async/page.rs:65-70 | Each present URL becomes a GET request of that URL, and each absent one becomes `None`, for both directions. |
| AsyncPages.PageTurn | src/async/page.rs:37-63 | An empty slot returns `Ok(None)` and sends nothing. Whatever is sent is the slot's request as authenticated. |
| AsyncPages.FreshHasNoPrev | src/async/page.rs:46-53 | `prev_page` on a new page returns `Ok(None)`, sends nothing and changes nothing. |
| AsyncPages.FailedTurnTakesSlot | src/async/page.rs:37-60 | When authentication, the fetch or the link reading fails, the call fails, its slot stays empty and the other slot is unchanged. |
| AsyncPages.LinksStoredBeforeDecoding | src/async/page.rs:55-63 | Once the links are read, the cursor holds the new links whether or not decoding then succeeds. |
| AsyncPages.ExhaustedIsTerminal | src/async/page.rs:37-53 | An empty cursor stays empty in both directions and sends nothing. |
| AsyncPages.Page.constructor | src/async/page.rs:28-35 | A new page has the first request in `next`, nothing in `prev`, and has sent nothing. |
| AsyncPages.Page.NextPage | src/async/page.rs:37-44 | The new cursor, result and send log are those of `PageTurn` in the `next` direction. |
| AsyncPages.Page.PrevPage | src/async/page.rs:46-53 | The new cursor, result and send log are those of `PageTurn` in the `prev` direction. |
| AsyncPages.Page.Send | src/async/page.rs:55-63 | The page authenticates, fetches, stores the links, then decodes, with each failure stopping it at that point. |
| AsyncPages.Page.FillLinksFromResp | src/async/page.rs:65-70 | On success both slots are replaced by `FillLinks` of the response's links. On failure neither slot changes. |
| Decoding.DecodeBody | src/async/mod.rs:248-261 | A target that decodes is returned. Otherwise a fallback that reads as the error shape gives `Api`, and anything else gives the original `Serde` error. |
| Decoding.Deserialise | src/lib.rs:554-568 | The blocking `deserialise` returns the decoded value. When the decode fails, it tries the error shape only on the bytes that decode consumed, giving `Api` or else the original `Serde` error. |
| Decoding.CheckedDeserialise | src/lib.rs:244-252 | 4xx gives `Client(status)` and 5xx gives `Server(status)` before any decoding. Every other status is decoded. |
| Decoding.CheckedIgnoresBodyOnError | src/lib.rs:244-250 | For an error status, the outcome does not depend on the body. |
| Decoding.CheckedAgreesOtherwise | src/lib.rs:244-252 | For any other status, the check changes nothing compared with `deserialise`. |
| Decoding.AsyncDeserialize | src/async/mod.rs:234-263 | 4xx gives `Other("4xx status code")`, 5xx gives `Other("5xx status code")`, and 1xx and 3xx give `Other("3xx or 1xx status code")`. For 2xx, a failed body read is passed up. |
| Decoding.AsyncDecodesOnlySuccess | src/async/mod.rs:247-261 | Only a 2xx body that was read is decoded. It succeeds exactly when the blocking decode does, with the same value. The two clients fail alike when the consumed prefix and the whole body read the same way as the error shape. |
| Decoding.FallbackBytesDiffer | src/lib.rs:555-563 | An error object whose consumed prefix is not one gives `Api` in the asynchronous client and `Serde` in the blocking one. |
| Decoding.AsyncNeverClientOrServer | src/async/mod.rs:236-247 | The status checks of the asynchronous client never report `Client` or `Server`. |
| Errors.Description | src/errors.rs:66-94 | `Api` falls back from `error_description` to `error` to `"Unknown API Error"`. `Client`/`Server` give the canonical reason, else `"Unknown Status code"`. The unit variants and `MissingField` give their own names. |
| Errors.ClientServerSameDescription | src/errors.rs:79-81 | A client error and a server error with the same status have the same description. |
| Errors.From | src/errors.rs:106-131 | Each conversion wraps its source error in the matching variant, which gives that error back. |
| Errors.FromKeepsDescription | src/errors.rs:74-78 | A converted foreign error keeps its own description. |
| StatusesRequests.New | src/requests/statuses.rs:83-85 | `new()` has every flag false and every option `None`. |
| StatusesRequests.OnlyMedia | src/requests/statuses.rs:96-99 | The setter sets `only_media` and changes nothing else. |
| StatusesRequests.ExcludeReblogs | src/requests/statuses.rs:117-120 | The setter sets `exclude_reblogs` and changes nothing else. |
| StatusesRequests.ExcludeReplies | src/requests/statuses.rs:138-141 | The setter sets `exclude_replies` and changes nothing else. |
| StatusesRequests.Pinned | src/requests/statuses.rs:159-162 | The setter sets `pinned` and changes nothing else. |
| StatusesRequests.MaxId | src/requests/statuses.rs:180-183 | The setter stores `max_id` and changes nothing else. |
| StatusesRequests.SinceId | src/requests/statuses.rs:201-204 | The setter stores `since_id` and changes nothing else. |
| StatusesRequests.Limit | src/requests/statuses.rs:222-225 | The setter stores `limit` and changes nothing else. |
| StatusesRequests.MinId | src/requests/statuses.rs:243-246 | The setter stores `min_id` and changes nothing else. |
| StatusesRequests.IntoOption | src/requests/statuses.rs:58-71 | The conversion into `Option` copies every field. |
| StatusesRequests.Fields | src/requests/statuses.rs:35-56 | The serialised fields follow the declared keys in order. |
| StatusesRequests.ToQueryString | src/requests/statuses.rs:265-267 | The output always starts with `?`, followed by the pairs. |
| StatusesRequests.KeysInDeclarationOrder | src/requests/statuses.rs:35-56 | Whatever the setters did, the written keys are a subsequence of the declaration order. |
| StatusesRequests.QueryCarriesFields | src/requests/statuses.rs:5-19 | Each key carries its field: a flag appears as `1` exactly when it is true, and an option appears exactly when it is `Some`. |
| StatusesRequests.QueryRoundTrip | src/requests/statuses.rs:35-56 | Reading the query back gives the request. |
| StatusesRequests.DocExample | src/requests/statuses.rs:252-263 | `new().limit(10).pinned()` gives `?pinned=1&limit=10`. |
| StatusesRequests.PinnedLimitPairs | src/requests/statuses.rs:35-56 | A request with only `pinned` and a limit set writes exactly those two pairs, `pinned` first. |
| StatusesRequests.SetterOrderIrrelevant | src/requests/statuses.rs:454-457 | `exclude_replies().only_media()` and the reverse order both give `?only_media=1&exclude_replies=1`. |
| StatusesRequests.MediaRepliesPairs | src/requests/statuses.rs:35-56 | A request with only `only_media` and `exclude_replies` set writes exactly those two pairs, in declaration order. |
| StatusesRequests.MediaRepliesQuery | src/requests/statuses.rs:265-267 | Any request with only `only_media` and `exclude_replies` set is written as `?only_media=1&exclude_replies=1`, whatever order the setters ran in. |
| StatusesRequests.OrderExample | src/requests/statuses.rs:454-457 | `exclude_replies().only_media()` gives `?only_media=1&exclude_replies=1`. |
| DirectoryRequests.New | src/requests/directory.rs:33-35 | `new()` has no offset, limit or order, and `local` is false. |
| DirectoryRequests.Offset | src/requests/directory.rs:38-41 | The setter stores the offset and changes nothing else. |
| DirectoryRequests.Limit | src/requests/directory.rs:44-47 | The setter stores the limit and changes nothing else. |
| DirectoryRequests.Order | src/requests/directory.rs:50-53 | The setter stores the order and changes nothing else. |
| DirectoryRequests.Local | src/requests/directory.rs:56-59 | The setter sets `local` to true and changes nothing else. |
| DirectoryRequests.Fields | src/requests/directory.rs:20-29 | The serialised fields follow the declared keys in order. |
| DirectoryRequests.ToQueryString | src/requests/directory.rs:77-79 | The output never starts with `?`, and it is empty exactly when nothing is set. |
| DirectoryRequests.KeysInDeclarationOrder | src/requests/directory.rs:20-29 | The written keys keep the declaration order. |
| DirectoryRequests.QueryRoundTrip | src/requests/directory.rs:77-79 | Reading the query back gives the request. |
| DirectoryRequests.DocExample | src/requests/directory.rs:68-75 | `new().limit(10)` gives exactly `limit=10`. |
| PushRequests.NewKeys | src/requests/push.rs:34-39 | `Keys::new` stores both keys as given. |
| PushRequests.NewAdd | src/requests/push.rs:94-101 | `new` copies the endpoint and both keys, and no flag is set. |
| PushRequests.Follow | src/requests/push.rs:114-117 | The setter sets `follow` to `Some(true)` and changes nothing else. |
| PushRequests.Favourite | src/requests/push.rs:130-133 | The setter sets `favourite` to `Some(true)` and changes nothing else. |
| PushRequests.Reblog | src/requests/push.rs:146-149 | The setter sets `reblog` to `Some(true)` and changes nothing else. |
| PushRequests.Mention | src/requests/push.rs:162-165 | The setter sets `mention` to `Some(true)` and changes nothing else. |
| PushRequests.BuildAdd | src/requests/push.rs:174-214 | `build` always succeeds and copies the endpoint and keys. The data block is absent exactly when no flag is set, and otherwise its alerts mirror the four flags. |
| PushRequests.BuildAddRoundTrip | src/requests/push.rs:189-211 | The request can be read back from the form it builds. |
| PushRequests.BuildAddExample | src/requests/push.rs:494-519 | `follow().reblog()` builds alerts with exactly those two flags. |
| PushRequests.NewUpdate | src/requests/push.rs:261-266 | `new` stores the id, and no flag is set. |
| PushRequests.UpdateFollow | src/requests/push.rs:277-280 | The setter stores the given boolean, `false` included, and changes nothing else. |
| PushRequests.UpdateFavourite | src/requests/push.rs:291-294 | The setter stores the given boolean and changes nothing else. |
| PushRequests.UpdateReblog | src/requests/push.rs:305-308 | The setter stores the given boolean and changes nothing else. |
| PushRequests.UpdateMention | src/requests/push.rs:319-322 | The setter stores the given boolean and changes nothing else. |
| PushRequests.BuildUpdate | src/requests/push.rs:331-361 | `build` copies the id, and the alerts are absent exactly when no flag is set. |
| PushRequests.BuildUpdateRoundTrip | src/requests/push.rs:340-358 | The request can be read back from the form it builds. |
| PushRequests.BuildUpdateExample | src/requests/push.rs:607-625 | `favourite(false)` still produces alerts, with `favourite` false. |
| UpdateCredentials.New | src/requests/update_credentials.rs:61-63 | `new()` is the all-default request. |
| UpdateCredentials.DisplayName | src/requests/update_credentials.rs:77-80 | The setter stores the display name and changes nothing else. |
| UpdateCredentials.Note | src/requests/update_credentials.rs:94-97 | The setter stores the note and changes nothing else. |
| UpdateCredentials.Avatar | src/requests/update_credentials.rs:111-116 | The setter stores the avatar path and changes nothing else. |
| UpdateCredentials.Header | src/requests/update_credentials.rs:130-135 | The setter stores the header path and changes nothing else. |
| UpdateCredentials.Privacy | src/requests/update_credentials.rs:149-152 | The setter stores the privacy and changes nothing else. |
| UpdateCredentials.Sensitive | src/requests/update_credentials.rs:166-169 | The setter stores the sensitive flag and changes nothing else. |
| UpdateCredentials.FieldAttribute | src/requests/update_credentials.rs:183-186 | `field_attribute` appends one entry and keeps the earlier ones in order. |
| UpdateCredentials.FieldAttributesInOrder | src/requests/update_credentials.rs:183-186 | Successive calls add their entries in call order after the existing ones. |
| UpdateCredentials.BuildAsWritten | src/requests/update_credentials.rs:188-200 | As written, `build` always succeeds and copies display name, note, avatar and fields. `header` is taken from `avatar`, and `source` is always present with privacy and sensitive. |
| UpdateCredentials.HeaderDroppedAsWritten | src/requests/update_credentials.rs:193 | As written, a header set on its own is lost. |
| UpdateCredentials.BuildAsWrittenNotInjective | src/requests/update_credentials.rs:193 | As written, two different requests build the same credentials. |
| UpdateCredentials.Build | src/requests/update_credentials.rs:188-200 | The corrected `build` copies every field, with `header` taken from `header`. |
| UpdateCredentials.BuildRoundTrip | src/requests/update_credentials.rs:188-200 | The request can be read back from the credentials. |
| UpdateCredentials.BuildInjective | src/requests/update_credentials.rs:188-200 | Two requests build the same credentials exactly when they are equal. |
| UpdateCredentials.BuildExample | src/requests/update_credentials.rs:306-323 | With `build` as written, name and note give credentials with an empty source block and nothing else. The corrected build gives the same. |
| FilterRequests.ParseContext | src/requests/filter.rs:143-152 | A name read back as a context is that context's name. |
| FilterRequests.ContextNameRoundTrip | src/requests/filter.rs:143-152 | Every context name reads back as its context. |
| FilterRequests.AsSecs | src/requests/filter.rs:63-73 | The whole seconds of a duration: the largest count of seconds not exceeding it. |
| FilterRequests.New | src/requests/filter.rs:30-38 | `new` stores the phrase and context and leaves the other three fields unset. |
| FilterRequests.Irreversible | src/requests/filter.rs:41-44 | The setter sets `irreversible` to `Some(true)` and changes nothing else. |
| FilterRequests.WholeWord | src/requests/filter.rs:47-50 | The setter sets `whole_word` to `Some(true)` and changes nothing else. |
| FilterRequests.ExpiresIn | src/requests/filter.rs:53-56 | The setter stores the duration and changes nothing else. |
| FilterRequests.SerializeDuration | src/requests/filter.rs:63-73 | `None` is written as `null`. A duration is written as its whole seconds, dropping the sub-second part. |
| FilterRequests.OptionalBool | src/requests/filter.rs:18-26 | An unset boolean is written as `null`, not omitted. |
| FilterRequests.ToJson | src/requests/filter.rs:18-26 | The body has all five members, in declaration order. |
| FilterRequests.JsonMembers | src/requests/filter.rs:18-26 | Each of the five members is found under its key, with the value the request holds. |
| FilterRequests.ReadExpiry | src/requests/filter.rs:63-73 | The written expiry reads back as the duration cut to whole seconds, and `null` as no expiry. |
| FilterRequests.JsonRoundTrip | src/requests/filter.rs:18-26 | Reading the body back gives the request, with the expiry cut to whole seconds. |
| FilterRequests.JsonRoundTripExact | src/requests/filter.rs:63-73 | The round trip is exact exactly when the expiry is a whole number of seconds. |
| FilterRequests.SerializeExample | src/requests/filter.rs:143-152 | `new("foo", Home).expires_in(300 s)` writes both flags as `null` and the expiry as 300. |
| FilterRequests.SubSecondDropped | src/requests/filter.rs:63-73 | 300.5 s is written as 300. |
| StatusBuilders.DefaultVisibility | src/status_builder.rs:52-56 | The default visibility is `Public`. |
| StatusBuilders.VisibilityNameRoundTrip | src/status_builder.rs:23-35 | The lowercase names are distinct, and each reads back as its visibility. |
| StatusBuilders.New | src/status_builder.rs:44-49 | `new(s)` sets `status` to `s` and every optional field to `None`. |
| StatusBuilders.ToJson | src/status_builder.rs:1-21 | The body always starts with the `status` member. |
| StatusBuilders.ToJsonCarriesFields | src/status_builder.rs:1-21 | Each optional field is a member exactly when it is set, with its value. |
| StatusBuilders.JsonRoundTrip | src/status_builder.rs:1-21 | Reading the body back gives the builder. |
| StatusBuilders.KeysInDeclarationOrder | src/status_builder.rs:1-21 | Members keep the declaration order, whichever are skipped. |
| StatusBuilders.NewWritesOnlyStatus | src/status_builder.rs:44-49 | A new builder's body holds the text alone. |
| Accounts.StringOrBool | src/entities/account.rs:60-83 | A JSON boolean passes through. `"true"` and `"false"` decode to their boolean. Any other string, or another JSON type, is an error. |
| Accounts.StringOrBoolAccepts | src/entities/account.rs:60-83 | A value decodes to `b` exactly when it is `b` itself or its lowercase text. |
| Accounts.StringOrBoolCaseSensitive | src/entities/account.rs:70-80 | `"True"` and `"FALSE"` are refused. |
| Accounts.Declared | src/entities/account.rs:119-124 | The fields are `display_name`, `note`, `avatar` and `header`, in that order. |
| Accounts.FormShape | src/entities/account.rs:97-127 | The form is built exactly when every present file can be read. It then has one part per present field, in field order, each being that field's text or file. |
| Accounts.FormSucceeds | src/entities/account.rs:97-127 | The form is built exactly when no present file field names an unreadable file. |
| Accounts.FormParts | src/entities/account.rs:97-127 | A built form has one part per present field, in field order, each the part that field adds. |
| Accounts.FormFailsAtFirstUnreadable | src/entities/account.rs:108-114 | A failing form fails with the I/O error of the first unreadable file. |
| Accounts.FormOfReadableFiles | src/entities/account.rs:97-127 | With readable files, the parts are exactly the given inputs, in field order. |
| Accounts.IntoForm | src/entities/account.rs:97-127 | The field-by-field `add_to_form!` expansion produces `Form` of the declared fields. |
| Accounts.AddToForm | src/entities/account.rs:99-115 | One macro arm: an absent field adds nothing, a text field adds its text, a file field adds its file or stops with the I/O error. What the remaining fields add is unchanged. |
| Scopes.Default | src/scopes.rs:50-54 | The default scope is `Read`. |
| Scopes.NamesAreJoinedWords | src/scopes.rs:6-48 | The serde name is the scope's words joined by spaces, and the display is the same words joined by `%20`. |
| Scopes.DisplayEncodesSerdeName | src/scopes.rs:8-48 | The display string is the serde name with each space written as `%20`. |
| Scopes.ParseDisplay | src/scopes.rs:31-48 | A display string read back as a scope is that scope's display. |
| Scopes.ParseDisplayRoundTrip | src/scopes.rs:31-48 | Every display string reads back as its scope. |
| Scopes.DisplayDistinct | src/scopes.rs:37-45 | Two scopes display the same exactly when they are equal. |
| Apps.App.Scopes | src/apps.rs:20-22 | `App::scopes` returns the stored scope. |
| Apps.AppBuilder.constructor | src/apps.rs:46-48 | A new builder has nothing set. |
| Apps.AppBuilder.ClientName | src/apps.rs:54-57 | The setter overwrites the client name only. |
| Apps.AppBuilder.RedirectUris | src/apps.rs:62-65 | The setter overwrites the redirect URIs only. |
| Apps.AppBuilder.SetScopes | src/apps.rs:70-73 | The setter overwrites the scopes only. |
| Apps.AppBuilder.Website | src/apps.rs:76-79 | The setter overwrites the website only. |
| Apps.AppBuilder.Build | src/apps.rs:84-97 | `build` fails with `MissingField("client_name")` exactly when no name is set. Otherwise the redirect defaults to `urn:ietf:wg:oauth:2.0:oob`, the scope defaults to `Read`, and the website passes through. |
| Apps.DocExample | src/apps.rs:84-97 | Only a client name gives every default. |
| Apps.LastCallWins | src/apps.rs:54-57 | Setting the name twice keeps the second. |
| Clients.Route | src/lib.rs:149-151 | `route` is the base followed directly by the path. |
| Clients.Relationships | src/lib.rs:370-383 | The append loop and the `pop` produce `RelationshipsUrl`. |
| Clients.AppendedIsEncodedPairs | src/lib.rs:376-380 | For one or more ids, the loop's text is the `&`-joined `id[]=<id>` pairs in id order, plus one trailing `&`. |
| Clients.AppendedWritten | src/lib.rs:377-379 | One turn of the loop extends the text by exactly that id's `id[]=<id>&`. |
| Clients.PopGivesUrl | src/lib.rs:371-381 | With no ids the `pop` removes the `?`; with several it removes the trailing `&`. Either way the result is `RelationshipsUrl`. |
| Clients.RelationshipsIdsRoundTrip | src/lib.rs:370-383 | Every id is read back, in order, from the URL's query. |
| Clients.RelationshipsShapes | src/lib.rs:370-383 | One id gives `?id=<id>`. No ids lose the `?`. Two ids give `?id[]=x&id[]=y`. |
| Clients.TaggedTimelineUrl | src/lib.rs:300-309 | The URL starts with the base and is longer by the tag path and the tag, plus the 8 characters of `?local=1` exactly when `local` is set. |
| Clients.TaggedTimelineQuery | src/lib.rs:300-309 | The URL has a query exactly when `local` is true, and that query reads `local=1`. |
| Clients.AccountStatusesUrl | src/lib.rs:357-361 | Without a request, the URL is the account's statuses route. With one, the route is followed by exactly one `?`, which the query string brings itself, and then the request's query. |
| Clients.MastodonBuilder.constructor | src/lib.rs:520-527 | A new builder has neither client nor data. |
| Clients.MastodonBuilder.Client | src/lib.rs:529-532 | The setter stores the client handle only. |
| Clients.MastodonBuilder.Data | src/lib.rs:534-537 | The setter stores the data only. |
| Clients.MastodonBuilder.Build | src/lib.rs:539-549 | `build` fails with `MissingField("missing field 'data'")` exactly when data is absent. Otherwise it keeps the data, with a default client if none was set. |
| Clients.FromData | src/lib.rs:160-169 | Converting `Data` always succeeds, with the default client. |
| Clients.SendChecked | src/lib.rs:244-252 | A transport error is passed up. 4xx gives `Client` and 5xx gives `Server`. Any other status is decoded. |
| Clients.AddFilter | src/lib.rs:240-253 | `add_filter` POSTs to `/api/v1/filters` with the token and is status-checked. |
| Clients.UpdateFilter | src/lib.rs:256-269 | `update_filter` PUTs to `/api/v1/filters/<id>` and is status-checked. |
| Clients.UpdateCredentialsCall | src/lib.rs:271-285 | The credentials from `build` as written, whose header is the avatar, are PATCHed to `/api/v1/accounts/update_credentials`, and the call is status-checked. |
| AsyncClients.New | src/async/mod.rs:61-67 | A base URL that does not parse is a `Url` error. Otherwise the client holds the parsed URL. |
| AsyncClients.Endpoint | src/async/mod.rs:80 | A join failure is a `Url` error. Otherwise the result is the joined URL. |
| AsyncClients.SetQuery | src/async/mod.rs:83 | `set_query` keeps the location and puts `?` before the text, whatever the text begins with. |
| AsyncClients.TimelineDoubleMarkAsWritten | src/async/mod.rs:80-84 | As written, a timeline URL with options has `??` before the query. |
| AsyncClients.TimelineRequestAsWritten | src/async/mod.rs:80-84 | The first request is a GET of the joined URL, and a join failure is a `Url` error. With options, the query set is `?` followed by the options' query, so the URL carries `??`. |
| AsyncClients.PinnedLostAsWritten | src/async/mod.rs:82-83 | As written, `limit(10).pinned()` reaches the server without `pinned`. |
| AsyncClients.PinnedFirstLostAsWritten | src/async/mod.rs:82-83 | As written, any request whose first written key is `pinned` reaches the server without `pinned`. |
| AsyncClients.TimelineQuery | src/async/mod.rs:82-83 | The corrected query is the statuses query text after its `?`. |
| AsyncClients.TimelineRequest | src/async/mod.rs:80-84 | The corrected first request is a GET of the joined URL. With options, its query is the options' query after a single `?`. |
| AsyncClients.TimelineQueryRoundTrip | src/async/mod.rs:76-86 | The URL has one `?`, and its query reads back as the options. |
| AsyncClients.StartPage | src/async/mod.rs:85 | The result is a new page at the first request with nothing sent, or the error that prevented it. |
| AsyncClients.PublicTimeline | src/async/mod.rs:76-86 | `public_timeline` sends nothing. It returns a new page whose first request is `TimelineRequestAsWritten` for `timelines/public`, `??` included. |
| AsyncClients.HashtagTimeline | src/async/mod.rs:89-102 | `hashtag_timeline` does the same for `timelines/tag/<tag>`, `??` included. |
| AsyncClients.AccountStatuses | src/async/mod.rs:159-172 | `account_statuses` does the same for `accounts/<id>/statuses`, `??` included. |
| AsyncClients.RebloggedBy | src/async/mod.rs:130-138 | `reblogged_by` returns a new page at `statuses/<id>/reblogged_by`. |
| AsyncClients.FavouritedBy | src/async/mod.rs:141-149 | `favourited_by` returns a new page at `statuses/<id>/favourited_by`. |
| AsyncClients.Send | src/async/mod.rs:70-73 | The client authenticates, then fetches, and an authentication error stops it. |
| AsyncClients.GetAndDecode | src/async/mod.rs:104-109 | The URL error, the send error, or `deserialize` of the response. |
| AsyncClients.Resource | src/async/mod.rs:104-109 | The single-resource GETs fail with `Url` on a bad join and otherwise send and decode. |
| AsyncClients.DirectoryUrl | src/async/mod.rs:210-218 | The directory query is the request's query string, which has no `?` of its own. |
| AsyncClients.DirectoryQueryRoundTrip | src/async/mod.rs:210-218 | The directory query reads back as the request. |
| AsyncClients.Directory | src/async/mod.rs:210-221 | `directory` fails with `Url` on a bad join. Otherwise it GETs the directory URL, passing up a send error or decoding the reply with `deserialize`. |
| AsyncClients.TrendsLimitLostAsWritten | src/async/mod.rs:224-228 | As written, the URL reads `??limit=<n>`, and a reader finds no `limit` key. |
| AsyncClients.TrendsUrlAsWritten | src/async/mod.rs:224-228 | As written, a join failure is a `Url` error. With a limit, the query set is `?limit=<n>`; without one, the URL is the joined one. |
| AsyncClients.TrendsUrl | src/async/mod.rs:224-228 | The corrected trends URL has a query exactly when a limit is given, and it is `limit=<n>` after a single `?`. |
| AsyncClients.TrendsQueryRoundTrip | src/async/mod.rs:226-227 | The corrected query reads back as the limit under `limit`. |
| AsyncClients.Trends | src/async/mod.rs:224-231 | `trends` fails with `Url` on a bad join. Otherwise it GETs the trends URL as written, passing up a send error or decoding the reply with `deserialize`. |
| Registrations.DefaultRedirectUri | src/registration.rs:22-24 | The default redirect is `urn:ietf:wg:oauth:2.0:oob`. |
| Registrations.RedirectOf | src/registration.rs:14-20 | A missing `redirect_uri` in the reply becomes the default. |
| Registrations.New | src/registration.rs:38-43 | A registration holds the base and a default client. |
| Registrations.AppsUrl | src/registration.rs:73 | Apps are registered at `<base>/api/v1/apps`. |
| Registrations.Register | src/registration.rs:69-88 | A conversion or server error is passed up. Otherwise the result keeps the base and client, takes id, secret and redirect from the reply, and takes the app's scopes. |
| Registrations.RegisterDefaultsRedirect | src/registration.rs:18-24 | A reply without a redirect registers the out-of-band URI. |
| Registrations.AuthorizeUrl | src/registration.rs:94-104 | `authorize_url` always succeeds. |
| Registrations.AuthorizeUrlQuery | src/registration.rs:94-104 | The URL is `<base>/oauth/authorize?` followed by `client_id`, `redirect_uri`, `scope` (its display) and `response_type=code`, in that order. |
| Registrations.AuthorizeQueryRoundTrip | src/registration.rs:95-101 | Values without `&` are read back from that query exactly. |
| Registrations.TokenUrlQuery | src/registration.rs:109-116 | The token URL is `<base>/oauth/token?` followed by `client_id`, `client_secret`, `code`, `grant_type=authorization_code` and `redirect_uri`, in that order. |
| Registrations.TokenUrl | src/registration.rs:109-116 | The token URL starts with the base and ends with the redirect URI. |
| Registrations.TokenQueryRoundTrip | src/registration.rs:109-116 | Values without `&` are read back from that query exactly. |
| Registrations.Complete | src/registration.rs:108-131 | A token error is passed up. Otherwise the client holds the same base, id, secret and redirect plus the returned token, on the registration's client. |

## Left out

- The HTTP and TLS transport (reqwest, async-h1, native-tls) is a parameter. This covers `Mastodon::send`, `client::fetch`, and the network calls of `register` and `complete`.
- Tokenising the raw `Link` header (`parsing::from_raw_str`) is not modelled. It is a foreign library, so the header arrives already split into link-values.
- `Url::parse` and `Url::join` are parameters.
- The canonical reason phrases of status codes are a parameter, because they are a table of the `http` crate.
- Percent-encoding is not modelled. The query round trips assume ids and order names made of unreserved characters, and values without `&` in the OAuth URLs.
- `to_querystring` can fail in serde_qs. The model treats it as infallible for these flat records.
- The character-level JSON text of the filter request is not modelled. The example is stated on the JSON object, with members in order, rather than on its text.
- `FilterContext` lives in src/entities/filter.rs, which is not part of this model. Its serde names are taken to be the lowercase variant names.
- `Credentials`, `UpdateSource` and `MetadataField` come from a version of src/entities/account.rs that is not part of this model. Their fields are the ones `build` fills in.
- `Error::Other`, which the asynchronous client uses, is not among the variants in src/errors.rs. The model adds it, with its message as its description.
- The TOML feature is not modelled: the `TomlSer`/`TomlDe` variants, src/data.rs persistence and src/helpers/toml.rs.
- src/mastodon_client.rs is not modelled. Its defaults are all `unimplemented!`.
- The route glue in src/macros.rs is not modelled. Its status check is the one modelled for `add_filter`.
- Entity schemas, src/media_builder.rs, src/async/auth.rs (authentication is a parameter), the examples, the lazy items iterator and any event stream are not modelled.
- Clients.Relationships: the blocking `relationships` and `statuses` calls then send the URL and call `Page::new`. That part is modelled once, by `Pages.Page.New`, not repeated per route.
- Clients.AccountStatusesUrl: takes the query text of `to_querystring` as the string it interpolates.
- Decoding.AsyncNeverClientOrServer: holds for the status checks only. How a failed asynchronous body read becomes the client's error is not part of this model, so that error is a parameter, assumed here to be neither `Client` nor `Server`.
- Which bytes the blocking client's streaming decode consumes before it fails is not computed. It is the body's `consumedAsApiError` reading, given alongside the whole-body reading.
- The `Duration` in `FilterRequests` is a count of nanoseconds. Its limit of 2^64 seconds is not modelled.

## Findings

| source | as written | input that shows it | evidently intended | confidence | as-written member | corrected member |
|---|---|---|---|---|---|---|
| src/requests/update_credentials.rs:193 | `build` sets the credentials' `header` from `self.avatar` | `UpdateCredsRequest::new().header("/h.png")` builds credentials with no header, the same as `new()` | `header: self.header` | not executed | UpdateCredentials.HeaderDroppedAsWritten | UpdateCredentials.BuildRoundTrip |
| src/async/mod.rs:82-83 | `set_query` is given `to_querystring()`, which already starts with `?` | `public_timeline(StatusesRequest::new().limit(10).pinned())` requests `…/public??pinned=1&limit=10`, whose first key reads `?pinned` | the query without its leading `?` | not executed | AsyncClients.PinnedFirstLostAsWritten | AsyncClients.TimelineQueryRoundTrip |
| src/async/mod.rs:227 | `set_query(Some(&format!("?limit={}", limit)))` | `trends(10)` requests `…/trends??limit=10`, whose only key is `?limit` | `limit=<n>` | not executed | AsyncClients.TrendsLimitLostAsWritten | AsyncClients.TrendsQueryRoundTrip |
