# javalin-swagger route documentation builder, in Dafny

This project models `SwaggerDef.kt` of javalin-swagger: a fluent builder that
records the OpenAPI documentation of one HTTP route. A `Route` owns exactly one
`Request` and one `Response`, both created with it. It also holds an optional id,
an optional description and an append-only list of `Parameter`s. A `Parameter` has a fixed
name and location and settable description, required flag and schema class. The
request has an optional description and optional `Content` (an append-only list
of `ContentEntry`, each with a fixed MIME type, an optional schema class and a
name-to-example map). The response is an append-only list of `ResponseEntry`,
each with a fixed status string, an optional description and optional content.

Files:

- `wrappers.dfy`: `Option`, standing for Kotlin's nullable types.
- `decimal.dfy`: module `Decimal`, Kotlin's `Int.toString()` (`DecimalString`)
  with a parser that inverts it and the round-trip lemmas in both directions.
- `swagger_def.dfy`: module `SwaggerDef`, the factory functions and the seven
  classes, one Dafny class per Kotlin class.
- `fluent_chains.dfy`: module `FluentChains`, whole fluent chains proved from
  the builder's contracts alone.

How the Kotlin maps to Dafny:

- Every node is a class whose mutable Kotlin `var`s are Dafny `var` fields.
  The `mutableListOf` lists are `seq` fields and the `mutableMapOf` map is a `map` field.
  Methods reassign these fields.
- Every Kotlin getter `x()` is the public field `x` read directly: `params()` is
  `parameters`, `entries()` is `entries`, `examples()` is `examples`, `mime()`
  is `mime`, `request()`/`response()` are `request`/`response`.
- Every setter `x(v)` is `SetX(v)`; it returns the receiver. Its `modifies`
  clause names only the field it writes (`modifies this`description`), so
  "every other field of every object is unchanged" is the frame itself.
- `name`, `location`, `mime`, `status`, `Route.request`, `Route.response` and
  `Request.response` are Kotlin `val`s; here they are `const`. No operation can change them.
- Kotlin's `Route` passes `this` to `Response(this)` and
  `Request(response, this)` while it is still being initialised. Dafny does
  not allow `this` before a constructor's `new;`. So the back-references
  `Request.route` and `Response.route` are `Route?`. The route's constructor
  creates its children with `null` and sets both back-references right after `new;`.
  `Route.Valid()` states the resulting links: both children point back to the route,
  and `request.response` is the route's own response.
  `Valid()` reads only those two back-reference fields, and no method writes
  them, so every operation preserves it.
- `io.swagger.v3.oas.annotations.enums.ParameterIn` is the local datatype
  `Location` with the library's five constants (`DEFAULT`, `HEADER`, `QUERY`,
  `PATH`, `COOKIE`). `Class<*>` and `Any` are the uninterpreted types
  `SchemaClass` and `ExampleValue`.
- Kotlin's `Int` is the newtype `Int32` (32-bit two's-complement range).

This file implements only what is listed above. A format/type mapper, a `params { }` block
with an ambient "current route", headers, security requirements, tags,
deprecation, multi-MIME entries, a request `required` flag and schema emission
are described for other versions of this project. None of them is in this file,
and the model follows the file.

## Model

| member | source | states |
|---|---|---|
| SwaggerDef.NewRoute | src/main/java/io/javalin/swagger/SwaggerDef.kt:7 | `route()` yields a fresh, linked route: no id, no description, no parameters, a response with no entries, a request with no description and no content |
| SwaggerDef.NewParameter | src/main/java/io/javalin/swagger/SwaggerDef.kt:9 | `parameter(name, location)` yields a fresh parameter with exactly that name and location and nothing else set |
| SwaggerDef.NewContent | src/main/java/io/javalin/swagger/SwaggerDef.kt:11 | `content()` yields a fresh content with no entries |
| SwaggerDef.WithMime | src/main/java/io/javalin/swagger/SwaggerDef.kt:13 | `withMime(m)` yields a fresh entry with MIME type `m`, no schema and no examples |
| SwaggerDef.WithStatusCode | src/main/java/io/javalin/swagger/SwaggerDef.kt:15 | `withStatus(Int)` stores the code's decimal rendering as the status; that status is canonical and parses back to the code |
| SwaggerDef.WithStatus | src/main/java/io/javalin/swagger/SwaggerDef.kt:17 | `withStatus(String)` stores the string verbatim as the status, with no description and no content |
| SwaggerDef.Route.constructor | src/main/java/io/javalin/swagger/SwaggerDef.kt:23-28 | a new route owns a fresh response and a fresh request that both point back to it, the request's response is the route's response, and id, description and parameters are empty |
| SwaggerDef.Route.SetDescription | src/main/java/io/javalin/swagger/SwaggerDef.kt:33-34 | returns the route; the description is now the new value (last write wins) and no other field changes |
| SwaggerDef.Route.SetId | src/main/java/io/javalin/swagger/SwaggerDef.kt:36-37 | returns the route; the id is now the new value and no other field changes |
| SwaggerDef.Route.Add | src/main/java/io/javalin/swagger/SwaggerDef.kt:39-40 | returns the route; the parameter list is the old list with the parameter appended, and id, description, request and response are unchanged |
| SwaggerDef.Route.Build | src/main/java/io/javalin/swagger/SwaggerDef.kt:42 | `build()` on a route returns that same route |
| SwaggerDef.BuildReturnsRoot | src/main/java/io/javalin/swagger/SwaggerDef.kt:24-31 | for a linked route, `request().build()`, `response().build()` and `build()` all return that route, and `request().response()` is the route's response |
| SwaggerDef.Parameter.constructor | src/main/java/io/javalin/swagger/SwaggerDef.kt:45-51 | name and location are the constructor arguments (and, being constants, stay so); description, required and schema start unset |
| SwaggerDef.Parameter.SetDescription | src/main/java/io/javalin/swagger/SwaggerDef.kt:53-54 | returns the parameter; overwrites the description only |
| SwaggerDef.Parameter.SetRequired | src/main/java/io/javalin/swagger/SwaggerDef.kt:56-57 | returns the parameter; overwrites the required flag only |
| SwaggerDef.Parameter.SetSchema | src/main/java/io/javalin/swagger/SwaggerDef.kt:59-60 | returns the parameter; overwrites the schema class only |
| SwaggerDef.Request.constructor | src/main/java/io/javalin/swagger/SwaggerDef.kt:67-69 | keeps the given response and route; description and content start unset |
| SwaggerDef.Request.SetDescription | src/main/java/io/javalin/swagger/SwaggerDef.kt:73-74 | returns the request; overwrites the description only |
| SwaggerDef.Request.SetContent | src/main/java/io/javalin/swagger/SwaggerDef.kt:76-77 | returns the request; overwrites the content only |
| SwaggerDef.Request.Build | src/main/java/io/javalin/swagger/SwaggerDef.kt:79 | `build()` on a request returns the route it was created for |
| SwaggerDef.Content.constructor | src/main/java/io/javalin/swagger/SwaggerDef.kt:82-83 | a new content has no entries |
| SwaggerDef.Content.Entry | src/main/java/io/javalin/swagger/SwaggerDef.kt:85-86 | returns the content; the entry list is the old list with the entry appended |
| SwaggerDef.ContentEntry.constructor | src/main/java/io/javalin/swagger/SwaggerDef.kt:89-93 | the MIME type is the constructor argument and constant; no schema, no examples |
| SwaggerDef.ContentEntry.SetSchema | src/main/java/io/javalin/swagger/SwaggerDef.kt:95-96 | returns the entry; overwrites the schema only |
| SwaggerDef.ContentEntry.Example | src/main/java/io/javalin/swagger/SwaggerDef.kt:98-99 | returns the entry; afterwards the name maps to the new example, replacing any earlier one, and every other name keeps its example; the key set grows by that name only |
| SwaggerDef.Response.constructor | src/main/java/io/javalin/swagger/SwaggerDef.kt:106-107 | keeps the given route; no entries |
| SwaggerDef.Response.Add | src/main/java/io/javalin/swagger/SwaggerDef.kt:109-110 | returns the response; the entry list is the old list with the entry appended, so duplicates are kept |
| SwaggerDef.Response.Build | src/main/java/io/javalin/swagger/SwaggerDef.kt:112 | `build()` on a response returns the route it was created for |
| SwaggerDef.ResponseEntry.constructor | src/main/java/io/javalin/swagger/SwaggerDef.kt:115-119 | the status is the constructor argument and constant; description and content start unset |
| SwaggerDef.ResponseEntry.SetDescription | src/main/java/io/javalin/swagger/SwaggerDef.kt:121-122 | returns the entry; overwrites the description only |
| SwaggerDef.ResponseEntry.SetContent | src/main/java/io/javalin/swagger/SwaggerDef.kt:124-125 | returns the entry; overwrites the content only |
| Decimal.NatDigits | src/main/java/io/javalin/swagger/SwaggerDef.kt:15 | the digits of a non-negative code: a non-empty run of decimal digits with no leading zero, starting with '0' exactly when the code is 0 |
| Decimal.DecimalString | src/main/java/io/javalin/swagger/SwaggerDef.kt:15 | `Int.toString()` is always a canonical decimal string, and it starts with '-' exactly when the code is negative |
| Decimal.DigitsValueOfNatDigits | src/main/java/io/javalin/swagger/SwaggerDef.kt:15 | the digits of n read back as n |
| Decimal.NatDigitsOfDigitsValue | src/main/java/io/javalin/swagger/SwaggerDef.kt:15 | a digit run without leading zero is the rendering of the value it denotes |
| Decimal.DecimalRoundTrip | src/main/java/io/javalin/swagger/SwaggerDef.kt:15 | parsing the rendered status gives back the code, for every integer |
| Decimal.CanonicalRoundTrip | src/main/java/io/javalin/swagger/SwaggerDef.kt:15 | every canonical decimal string parses, and rendering the parsed value gives the string back |
| Decimal.DecimalStringInjective | src/main/java/io/javalin/swagger/SwaggerDef.kt:15 | two codes with the same rendered status are equal |
| Decimal.RenderingOfOk | src/main/java/io/javalin/swagger/SwaggerDef.kt:15 | `withStatus(200)` stores "200" |
| FluentChains.GetUserRoute | src/main/java/io/javalin/swagger/SwaggerDef.kt:7-60 | the chain route().id("getUser").response().add(withStatus(200).description("OK")).build().add(parameter("id", PATH).required(true).schema(c)) yields exactly that id, one "200"/"OK" entry and one such parameter, with the route still linked |
| FluentChains.DuplicateStatusesKept | src/main/java/io/javalin/swagger/SwaggerDef.kt:104-125 | two response entries with status "200" (one from the code, one from the string) are both kept, in order |
| FluentChains.RequestWithExamples | src/main/java/io/javalin/swagger/SwaggerDef.kt:65-100 | a request body built from content().entry(withMime(...).schema(s).example(...)...) holds that one entry, with the last example written under each name |

## Left out

- Getters: Kotlin's `params()`, `entries()` and `examples()` return the live mutable collection, which later `add`/`entry`/`example` calls change. Here a read of the field is a snapshot value. Aliasing of those collections is not modelled.
- SwaggerDef.Request.Build: requires its back-reference to be set. In Kotlin it is never null. Here it is null only inside the route's constructor, because Dafny cannot pass `this` before `new;`.
- SwaggerDef.Response.Build: requires its back-reference to be set, for the same reason.
- SwaggerDef.Request.constructor: takes `Route?` rather than `Route`, for the same reason.
- SwaggerDef.Response.constructor: takes `Route?` rather than `Route`, for the same reason.
- `Class<*>` schema handles and `Any` example values are uninterpreted types; reflection on them is not modelled.
- `ParameterIn` belongs to the OpenAPI annotation library, which is not part of this model. Only its five constants are reproduced.
- This file has no I/O, concurrency or floating point, so nothing of that kind is left out.
