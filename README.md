# Homesfy chat widget: request gating and tenant resolution

This project models, in Dafny, the part of the Homesfy chat backend and its embeddable widget that decides whether a request is admitted and which project (tenant) a request or a widget belongs to. It proves properties of that model.

- **CORS allow-list** (`origins.dfy`, module `Origins`). The server expands its configured origins in two ways: an entry holding `*` becomes the entry at seven development ports, and `localhost` and `127.0.0.1` URLs are mirrored into each other. When `"*"` is configured, the server uses `["*"]` instead of the expansion. Each request's `Origin` then goes through an ordered chain of guards. The expansion is an imperative loop over an insertion-ordered set, proved equal to a specification function. The properties are proved about that function.
- **Widget-config routes** (`widget_config.dfy`, module `WidgetConfigRoutes`):
  - domain normalisation;
  - the domain-to-project chain: static map, then the document store, then the domain itself;
  - the default record served when a project has no stored configuration.
- **Widget bootstrap** (`widget.dfy`, module `Widget`):
  - the registry of mounted widgets, a class whose map field `Mount` and `Destroy` update;
  - the `||` precedence chains for the API base URL, the microsite and the project;
  - the domain-lookup fallbacks, the theme fetch fallback and the theme merge.
- **Input validation** (`validation.dfy`, module `Validation`):
  - `sanitizeString`;
  - the chat, lead, event and widget-config validator chains, as error lists with their messages in order, each tied to a predicate that says when a body is accepted;
  - the middleware that turns errors into a 400 reply.
- **Error replies** (`error_handler.dfy`, module `ErrorHandling`): the status and body that `errorHandler` builds from an error and the `NODE_ENV` mode, and `createError`.
- `common.dfy` (module `Common`) holds the JSON value type and the JavaScript string primitives the code relies on:
  - `trim`, with the ECMAScript whitespace set;
  - `toLowerCase` on ASCII letters;
  - first-occurrence search and `replace` with a one-character pattern.

Conventions:
- A JavaScript value that is only ever tested for truthiness is a string here. The empty string stands for `undefined`, `null` and `""`.
- A numeric status field that is missing or falsy is `0`.
- Results of the network, the store and the page (DOM) are parameters of the operations.

Behaviour of the code that is easy to get wrong, and which the model follows:
- **Domain normalisation.** The scheme and `www.` tests in `normalizeDomain` are case-sensitive and run before lower-casing. So `"HTTPS://WWW.Example.com/"` normalises to `"https://www.example.com"`, not to `"example.com"` (`MixedCaseAddressKept`, and `UpperCaseSchemeKept` for every canonical domain). Normalising is therefore not idempotent (`NormalizeNotIdempotent`).
- **Expansion.** Origin expansion is not idempotent: a second pass over the expansion of `http://localhost:*` adds `http://127.0.0.1:3000` (`ExpansionNotIdempotent`).
- **A bare `"*"` entry** takes the wildcard branch and adds the bare port numbers (`BareStarExpandsToPorts`). The `origin === "*"` arm of the `catch` is unreachable. The server never expands such a list anyway, because a configured `"*"` bypasses expansion.
- **Project precedence.** In `init`, the script tag's `data-project` and `data-project-id` beat a caller-supplied `options.projectId` (`ProjectIdFor`).
- **Welcome text.** The default record's welcome message ends its first line with the characters U+00F0 U+0178 U+2018 U+2039, as the route spells it, not with a wave emoji.

`destroy` removes the registry entry of its project whatever instance that entry holds now, as the code does. So a stale widget's `destroy` also unregisters a newer widget of the same project.

## Model

| member | source | states |
|---|---|---|
| Origins.Parse | apps/api/src/server.js:31 | text without a `:` is `None` (the constructor throws). A parsed URL comes from a valid scheme followed by `://`, and has a protocol ending in `:`, a lower-case host name, and a port that is empty or a number in range written without leading zeros and not the scheme's default |
| Origins.ParseAuthority | apps/api/src/server.js:31 | the text after `scheme://` gives the scheme's protocol, a lower-case host and a port as the constructor writes it, or `None` |
| Origins.AuthorityParts | apps/api/src/server.js:31 | `host:port` throws for a port above 65535 and otherwise gives the given protocol, the lower-cased host and the serialised port, for every protocol |
| Origins.AuthorityNoPort | apps/api/src/server.js:31 | an authority without `:` gives the lower-cased host and no port |
| Origins.SchemeAuthority | apps/api/src/server.js:31 | `scheme://authority` with no path parses its authority under the protocol `Lower(scheme) + ":"` |
| Origins.SerializedPort | apps/api/src/server.js:31 | the `port` property for a port in range: the same number, written without leading zeros; empty exactly when no port was written or it is the scheme's default; a port already in that form is kept |
| Origins.AddWildcardPorts | apps/api/src/server.js:22-29 | the port loop of a wildcard entry adds `base` plus each development port, in order, to the set |
| Origins.AddParsed | apps/api/src/server.js:33-45 | after a successful parse, one `forEach` step adds exactly the entry's contribution: nothing for an empty protocol or host, both loopback spellings, else the entry |
| Origins.AddEntry | apps/api/src/server.js:19-55 | one `forEach` step adds exactly the entry's contribution to the set: ports for a wildcard, the entry itself when the parse fails, else what `AddParsed` adds |
| Origins.ExpandAllowedOrigins | apps/api/src/server.js:16-58 | the returned array equals the specification `ExpandSpec`, has no duplicates, and holds every configured entry, even malformed ones |
| Origins.AddAllElements | apps/api/src/server.js:17 | adding to the insertion-ordered set keeps it duplicate-free and adds exactly the given elements |
| Origins.ExpandSpecElements | apps/api/src/server.js:17-57 | the expansion holds exactly the configured entries and their contributions, with no duplicate |
| Origins.WildcardEntryAddsPorts | apps/api/src/server.js:22-28 | an entry holding `*` puts the entry with its first `*` removed, followed by each of 3000, 5173, 5501, 5000, 5001, 8080, 8081, in the expansion |
| Origins.WildcardContribution | apps/api/src/server.js:22-29 | `base*` contributes exactly `base` plus each development port, in order |
| Origins.LoopbackContribution | apps/api/src/server.js:37-42 | a loopback URL contributes exactly `protocol//localhost[:port]` and `protocol//127.0.0.1[:port]` |
| Origins.LoopbackEntryMirrored | apps/api/src/server.js:37-42 | a loopback URL in the list puts both loopback spellings, with its protocol and port, in the expansion |
| Origins.PlainEntryAddsItself | apps/api/src/server.js:43-53 | an entry without `*` that is not a loopback URL contributes nothing but itself |
| Origins.PlainListUnchanged | apps/api/src/server.js:17-55 | a list with no wildcard and no loopback entry expands to exactly its own entries |
| Origins.ParseHttpHostPort | apps/api/src/server.js:31 | `http://host:port` throws for a port above 65535, and otherwise parses to protocol `http:`, the host as written but lower-cased, and the port as the constructor writes it |
| Origins.LeadingZeroPortDropped | apps/api/src/server.js:31-37 | a port written with a leading zero parses like the port without it |
| Origins.DefaultPortDropped | apps/api/src/server.js:31-37 | `http://host:80` parses with no port, so its loopback spellings carry none |
| Origins.OutOfRangePortKeptVerbatim | apps/api/src/server.js:31-53 | an entry whose port is above 65535 makes the constructor throw, so it is kept as written and nothing is mirrored |
| Origins.WildcardLoopbackNotMirrored | apps/api/src/server.js:22-29 | one pass over `http://localhost:*` admits no `http://127.0.0.1:port` |
| Origins.WildcardHostPort | apps/api/src/server.js:22-28 | the expansion of `http://host:*` holds `http://host:port` for every development port |
| Origins.LoopbackHostPortMirrored | apps/api/src/server.js:37-42 | a list entry `http://host:port` with a loopback host and a port as the constructor writes it puts both loopback spellings of the port in the expansion |
| Origins.WildcardLoopbackMirroredTwice | apps/api/src/server.js:22-45 | expanding the expansion of `http://localhost:*` admits both loopback spellings of every development port |
| Origins.ExpansionNotIdempotent | apps/api/src/server.js:16-58 | expanding `["http://localhost:*"]` twice differs from expanding it once |
| Origins.BareStarExpandsToPorts | apps/api/src/server.js:22-29 | a bare `"*"` entry contributes the seven port numbers themselves |
| Origins.NoStarContribution | apps/api/src/server.js:19-55 | no entry other than `"*"` contributes `"*"` to the expansion |
| Origins.EffectiveOrigins | apps/api/src/server.js:92-94 | with `"*"` configured the allow-list is exactly `["*"]`; otherwise it is the expansion, which contains every configured entry and never `"*"` |
| Origins.SocketOriginFor | apps/api/src/server.js:95 | the socket server allows any origin iff the list holds `"*"`, else exactly the list |
| Origins.CorsDecision | apps/api/src/server.js:125-148 | a request is admitted iff it has no origin, starts with `http://localhost:` or `http://127.0.0.1:`, the list holds `"*"`, or the origin is in the list; a rejection says "Not allowed by CORS" |
| Origins.StarConfigAdmitsAll | apps/api/src/server.js:137-139 | with `"*"` configured every origin is admitted |
| Origins.ConfiguredOriginAdmitted | apps/api/src/server.js:142-144 | every configured origin is admitted |
| Origins.LoopbackSiblingAdmitted | apps/api/src/server.js:37-42 | configuring one loopback spelling admits the other, with the same protocol and port |
| WidgetConfigRoutes.StripScheme | apps/api/src/routes/widgetConfig.js:26 | a leading lower-case `https://` is removed, else a leading `http://`; any other text is unchanged |
| WidgetConfigRoutes.StripWww | apps/api/src/routes/widgetConfig.js:27 | a leading lower-case `www.` is removed; text without one is unchanged |
| WidgetConfigRoutes.StripTrailingSlash | apps/api/src/routes/widgetConfig.js:28 | the result is the input or the input less its last character, and it is the input iff that does not end in `/` |
| WidgetConfigRoutes.NormalizeDomain | apps/api/src/routes/widgetConfig.js:22-31 | `None` exactly for the empty domain; otherwise a lower-case, trimmed string no longer than the input |
| WidgetConfigRoutes.NormalizeCanonical | apps/api/src/routes/widgetConfig.js:25-30 | a non-empty, lower-case, trimmed domain without scheme, `www.` or trailing `/` comes back unchanged |
| WidgetConfigRoutes.NormalizeVariants | apps/api/src/routes/widgetConfig.js:26-28 | one optional lower-case scheme, one `www.` and one trailing `/` around a canonical domain are all removed, giving the domain |
| WidgetConfigRoutes.MixedCaseAddressKept | apps/api/src/routes/widgetConfig.js:22-31 | `"HTTPS://WWW.Example.com/"` normalises to `"https://www.example.com"`: only the trailing slash goes, then the text is lower-cased |
| WidgetConfigRoutes.UpperCaseSchemeKept | apps/api/src/routes/widgetConfig.js:26-29 | an upper-case `HTTPS://` is not stripped and comes out lower-cased |
| WidgetConfigRoutes.NormalizeNotIdempotent | apps/api/src/routes/widgetConfig.js:22-31 | normalising the normal form of `HTTPS://domain` changes it again |
| WidgetConfigRoutes.ResolveDomain | apps/api/src/routes/widgetConfig.js:34-86 | "Invalid domain" iff the domain normalises to nothing. A truthy static entry wins with `static_map`, and the store is then not asked. The store is asked only without a static hit and on the document store, and a match with a project gives `database`. Otherwise the normalised domain is the project, with `auto_detected`. The reported domain is the normalised one, and the project is never empty |
| WidgetConfigRoutes.DefaultConfig | apps/api/src/routes/widgetConfig.js:95-101 | the default record has exactly the keys `projectId`, `primaryColor`, `welcomeMessage`, `autoOpenDelayMs` and `propertyInfo`: the requested project, colour `#6158ff`, the default welcome text, a delay of 4000 and an empty property record |
| WidgetConfigRoutes.ConfigReply | apps/api/src/routes/widgetConfig.js:88-116 | a non-empty stored record is returned as is. A missing or empty record, or a failed lookup, gives the default record for the requested project. The body is never empty |
| WidgetConfigRoutes.DefaultConfigPassesValidation | apps/api/src/routes/widgetConfig.js:97-100 | the default colour and the empty property record, posted back as an update, pass the widget-config validation chain |
| Widget.FirstTruthy | apps/widget/src/widget.jsx:114-133 | the first non-empty candidate wins; the fallback is used only when every candidate is empty |
| Widget.ApiBaseUrl | apps/widget/src/widget.jsx:114-119 | options, then data attribute, then build setting, then page global, then `http://localhost:4000`; never empty |
| Widget.Microsite | apps/widget/src/widget.jsx:120-121 | options, then data attribute, then the page's host name |
| Widget.ManualProjectId | apps/widget/src/widget.jsx:136 | `data-project` when set, else `data-project-id` |
| Widget.ConfiguredProjectId | apps/widget/src/widget.jsx:129-133 | options, then the data attributes, then the build-time default |
| Widget.ProjectFromLookup | apps/widget/src/widget.jsx:143-162 | 2xx gives the reply's project or the host name; non-2xx gives the host name; a failure gives the host name, or "default" when it is empty, and is never empty |
| Widget.ProjectIdFor | apps/widget/src/widget.jsx:129-165 | a data attribute beats everything, `options.projectId` included. Otherwise a configured project other than "" or "default" is used. Otherwise the domain lookup decides |
| Widget.DetectProjectId | apps/widget/src/widget.jsx:129-165 | the step-by-step reassignment of the project gives `ProjectIdFor`, and the domain lookup is made iff nothing usable was configured |
| Widget.FetchWidgetTheme | apps/widget/src/widget.jsx:19-32 | the parsed body on 2xx, the empty object on a non-2xx reply or a failure |
| Widget.MergeTheme | apps/widget/src/widget.jsx:194-201 | keys other than `propertyInfo` come from the overrides, else from the remote theme. `propertyInfo` is the detected info when non-empty, else the remote one when truthy, else `{}` |
| Widget.DetectedPropertyWins | apps/widget/src/widget.jsx:198-200 | non-empty detected property info beats the overrides and the remote theme |
| Widget.OverriddenPropertyInfoIgnored | apps/widget/src/widget.jsx:194-201 | a `propertyInfo` among the caller's overrides never reaches the merged theme |
| Widget.WidgetInstance.constructor | apps/widget/src/widget.jsx:98-106 | a new widget is rendered, carries what it was mounted with, and its own host is in the page iff no target was given |
| Widget.WidgetInstance.Destroy | apps/widget/src/widget.jsx:99-105 | the registry loses exactly this project's key and nothing else; the widget is unmounted; its own host leaves the page |
| Widget.WidgetRegistry.constructor | apps/widget/src/widget.jsx:7 | the registry starts empty |
| Widget.WidgetRegistry.Mount | apps/widget/src/widget.jsx:63-110 | an already mounted project gets its stored widget back and the registry is unchanged; otherwise a fresh widget is filed under the project and no other key changes; the registry stays consistent |
| Widget.WidgetRegistry.Init | apps/widget/src/widget.jsx:112-210 | the mounted widget's project is `ProjectIdFor`. The domain lookup is made iff needed. The detected property is reported iff non-empty. A fresh widget gets `ApiBaseUrl`, `Microsite` and the merged theme |
| Validation.Validate | apps/api/src/middleware/validation.js:6-18 | passes on iff there is no error; otherwise a 400 "Validation failed" reply with one field/message detail per error, in order |
| Validation.RemoveAngles | apps/api/src/middleware/validation.js:27 | the result has no `<` or `>`, is the input when it has none, and holds exactly the other characters of the input |
| Validation.RemoveAnglesConcat | apps/api/src/middleware/validation.js:27 | removing the brackets from a concatenation removes them from each part in turn, so the other characters keep their order |
| Validation.SanitizeString | apps/api/src/middleware/validation.js:23-29 | non-strings unchanged. A string result has no `<` or `>`, is at most 10000 long, and is a prefix of the trimmed input without angle brackets: all of it when that fits, else exactly its first 10000 characters |
| Validation.RequiredText | apps/api/src/middleware/validation.js:35-40 | a `trim().notEmpty().isLength()` chain reports nothing iff the trimmed value is non-empty and within the bounds, and each error names the field |
| Validation.OptionalText | apps/api/src/middleware/validation.js:52-56 | an `optional().trim().isLength({max})` chain reports nothing iff the field is absent or short enough after trimming |
| Validation.OptionalArray | apps/api/src/middleware/validation.js:48-51 | an `optional().isArray()` chain reports nothing iff the field is absent or an array, and each error names the field |
| Validation.OptionalObject | apps/api/src/middleware/validation.js:150-153 | an `optional().isObject()` chain reports nothing iff the field is absent or an object (not an array), and each error names the field |
| Validation.ValidateChat | apps/api/src/middleware/validation.js:34-58 | no error iff the message is 1-5000 and the project 1-100 long after trimming, a conversation is an array, and a microsite is at most 200 |
| Validation.SanitizedField | apps/api/src/middleware/validation.js:41 | what the handler receives has no angle brackets and is at most 10000 long |
| Validation.AcceptedMessageSanitized | apps/api/src/middleware/validation.js:35-41 | for an accepted chat message the length cut never applies: the handler sees the trimmed message without angle brackets |
| Validation.ShortFieldSanitized | apps/api/src/middleware/validation.js:23-29 | a value at most 10000 long after trimming is sanitised without a cut |
| Validation.BlankMessageReportedTwice | apps/api/src/middleware/validation.js:35-40 | a blank message yields "Message is required" then the length message, first |
| Validation.PhoneErrors | apps/api/src/middleware/validation.js:64-70 | no phone error iff the phone is absent, or 10-20 long after trimming and matching `^\+?[\d\s()-]+$` |
| Validation.BhkTypeErrors | apps/api/src/middleware/validation.js:71-89 | no error iff the trimmed value is one of the twelve listed types |
| Validation.ValidateLead | apps/api/src/middleware/validation.js:63-105 | no error iff the phone rule holds, the type is listed, the microsite is 1-200 long, metadata is an object and a conversation an array |
| Validation.PhonePatternShape | apps/api/src/middleware/validation.js:69 | a string matching `^\+?[\d\s()-]+$` is made of digits, whitespace, `(`, `)`, `-`, except for a possible leading `+` |
| Validation.AcceptedPhoneShape | apps/api/src/middleware/validation.js:64-70 | an accepted phone is 10-20 characters of digits, whitespace, `(`, `)`, `-`, with at most a leading `+` |
| Validation.ValidateEvent | apps/api/src/middleware/validation.js:110-133 | no error iff the type is 1-50 and the project 1-100 long after trimming, a microsite is at most 200, and a payload is an object |
| Validation.ValidateWidgetConfig | apps/api/src/middleware/validation.js:138-155 | no error iff the agent name is at most 100, the colour is `#` and six hex digits after trimming, and property info is an object; the colour error appears iff the colour is present and malformed |
| ErrorHandling.StatusOf | apps/api/src/middleware/errorHandler.js:17 | `statusCode` if set, else `status` if set, else 500; never 0 |
| ErrorHandling.ErrorHandler | apps/api/src/middleware/errorHandler.js:6-35 | the reply has that status. The message is the generic text for a production 500, else the error's message or "An error occurred". Details and stack appear only in development |
| ErrorHandling.ProductionHidesInternals | apps/api/src/middleware/errorHandler.js:20-33 | in production no details or stack are sent, and a 500 carries only the generic text |
| ErrorHandling.CreateError | apps/api/src/middleware/errorHandler.js:49-53 | the error carries the message, and `statusCode` is the given one or 500 |
| ErrorHandling.CreatedErrorReply | apps/api/src/middleware/errorHandler.js:49-53 | a created error is answered with its status (500 by default or when 0) and its own message, unless it is a production 500 or the message is empty |

## Left out

- The rate limiter only configures a library whose counting is not in the repository.
- The events route repeats the event validation over a store that is not part of this model.
- Server bootstrap is all I/O: database connection, security headers, socket rooms, listening, and the chat-model availability check.
- `POST /:projectId` and the configuration store. Store results and errors are inputs (`StoreLookup`, `ConfigLookup`).
- `asyncHandler` only forwards a rejected promise to the error middleware.
- Widget transport and DOM are left out: shadow root, React rendering, the event dispatcher with its timestamp, `sendBeacon`/`fetch`, and console logging. The property detector is not part of this model, and its result is an input.
- Build-time settings (`import.meta.env`) and the page global are inputs (`Environment`).
- Async ordering and cancellation. Every `await` is a step with a given result.
- Origins.Parse: covers only `scheme://host[:port][/path]`, with the URL Standard's port rules (range, leading zeros, default ports of the special schemes). It does not cover the rest of the URL Standard's parsing: IDNA, percent-encoding, credentials, IPv6 hosts.
- Origins.Parse: the host is taken as written and lower-cased, with no host parsing. IPv4 number forms are not canonicalised (`127.1` stays `127.1`, so it is not mirrored, where the constructor makes it `127.0.0.1`). An empty host or a forbidden code point is not rejected. A non-special scheme's opaque host keeps its case in the constructor but is lower-cased here. The `file:` rules (a `localhost` host becomes empty, a port throws) are not modelled. In each case the model's contribution for such an entry can differ from the server's.
- Common.Lower: lower-cases ASCII letters only, not every Unicode letter.
- Validation.ValidateChat, ValidateLead, ValidateEvent, ValidateWidgetConfig: lengths count every character, one per Unicode scalar value. The validator's `isLength` also counts a surrogate pair as one, but it does not count the variation selectors U+FE0E and U+FE0F, and the model does. A field holding a non-string JSON value (number, null) is not modelled. A present field is a string.
- Validation.SanitizeString: `substring(0, 10000)` cuts after 10000 UTF-16 code units and can split a surrogate pair. The model cuts after 10000 characters, so a value with characters outside the Basic Multilingual Plane keeps more of its text here.
- Widget.MergeTheme: spreading a string or an array (which copies indexed keys) is not modelled. Only objects contribute keys.
- Widget.WidgetRegistry.Init: `detectedPropertyInfo` is an optional record. A truthy non-object value is not modelled.
- WidgetConfigRoutes.ResolveDomain: the static map is a parameter, since the source's map is empty. Keys inherited from the JavaScript object prototype (such as `constructor`) are not modelled. The outer 500 reply of the handler is not modelled either: nothing in the modelled steps throws outside the inner `try`.
