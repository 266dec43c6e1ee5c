/**
 * The fluent builder that records the documentation of one HTTP route: a Route
 * owning one Request and one Response, its Parameters, and the Content,
 * ContentEntry and ResponseEntry nodes hung below them.
 *
 * Every Kotlin getter `x()` is the public field `x` read directly (`params()` is
 * `parameters`, `mime()` is `mime`); every Kotlin setter `x(v)` is the method
 * `SetX(v)`. Each setter's `modifies` clause names the one field it writes, so
 * the frame itself says that every other field of every object is left alone.
 */
module SwaggerDef {
  import opened Wrappers
  import Decimal

  /** Kotlin's `Int`, the type a numeric status code is given in. */
  newtype Int32 = x: int | -0x8000_0000 <= x < 0x8000_0000

  /** The OpenAPI annotation library's `ParameterIn`: where a parameter travels. */
  datatype Location = Default | Header | Query | Path | Cookie

  /** A `Class<*>` handle naming a schema type; the builder stores it and never looks inside. */
  type SchemaClass(==)

  /** An example value of any type; the builder stores it and never looks inside. */
  type ExampleValue

  //#region Factory functions

  method NewRoute() returns (r: Route)
    ensures fresh(r) && fresh(r.response) && fresh(r.request) && r.Valid()
    ensures r.id == None && r.description == None && r.parameters == []
    ensures r.response.entries == []
    ensures r.request.description == None && r.request.content == None
  {
    r := new Route();
  }

  method NewParameter(name: string, location: Location) returns (p: Parameter)
    ensures fresh(p) && p.name == name && p.location == location
    ensures p.description == None && p.required == None && p.schema == None
  {
    p := new Parameter(name, location);
  }

  method NewContent() returns (c: Content)
    ensures fresh(c) && c.entries == []
  {
    c := new Content();
  }

  method WithMime(mime: string) returns (e: ContentEntry)
    ensures fresh(e) && e.mime == mime && e.schema == None && e.examples == map[]
  {
    e := new ContentEntry(mime);
  }

  /** `withStatus(Int)`: the status is the code's decimal rendering, which reads back as the code. */
  method WithStatusCode(status: Int32) returns (e: ResponseEntry)
    ensures fresh(e) && e.status == Decimal.DecimalString(status as int)
    ensures Decimal.IsCanonicalDecimal(e.status) && Decimal.ParseDecimal(e.status) == Some(status as int)
    ensures e.description == None && e.content == None
  {
    Decimal.DecimalRoundTrip(status as int);
    e := new ResponseEntry(Decimal.DecimalString(status as int));
  }

  /** `withStatus(String)`: the status is stored verbatim ("default", "4XX", ...). */
  method WithStatus(status: string) returns (e: ResponseEntry)
    ensures fresh(e) && e.status == status
    ensures e.description == None && e.content == None
  {
    e := new ResponseEntry(status);
  }

  //#endregion

  //#region Route

  class Route {
    const response: Response
    const request: Request
    var description: Option<string>
    var id: Option<string>
    var parameters: seq<Parameter>

    /**
     * The links the constructor sets up: the request and the response point back
     * to this route, and the request's response is this route's response.
     */
    ghost predicate Valid()
      reads response`route, request`route
    {
      response.route == this && request.route == this && request.response == response
    }

    constructor ()
      ensures Valid()
      ensures fresh(response) && fresh(request)
      ensures id == None && description == None && parameters == []
      ensures response.entries == []
      ensures request.description == None && request.content == None
    {
      var resp := new Response(null);
      response := resp;
      request := new Request(resp, null);
      description, id, parameters := None, None, [];
      new;
      response.route := this;
      request.route := this;
    }

    method SetDescription(description: string) returns (r: Route)
      modifies this`description
      ensures r == this && this.description == Some(description)
    {
      this.description := Some(description);
      r := this;
    }

    method SetId(id: string) returns (r: Route)
      modifies this`id
      ensures r == this && this.id == Some(id)
    {
      this.id := Some(id);
      r := this;
    }

    /** Appends a parameter; the ones already there keep their places. */
    method Add(parameter: Parameter) returns (r: Route)
      modifies this`parameters
      ensures r == this && parameters == old(parameters) + [parameter]
    {
      parameters := parameters + [parameter];
      r := this;
    }

    /** The terminator of a chain on the route: no validation, the route itself. */
    method Build() returns (r: Route)
      ensures r == this
    {
      r := this;
    }
  }

  /**
   * Every terminator of a route's children leads back to the route: the request's
   * and the response's `build()` both return it, and `request().response()` is
   * the route's own response.
   */
  method BuildReturnsRoot(route: Route) returns (fromRequest: Route, fromResponse: Route, fromRoute: Route)
    requires route.Valid()
    ensures fromRequest == route && fromResponse == route && fromRoute == route
    ensures route.request.response == route.response
  {
    fromRequest := route.request.Build();
    fromResponse := route.response.Build();
    fromRoute := route.Build();
  }

  class Parameter {
    const name: string
    const location: Location
    var description: Option<string>
    var required: Option<bool>
    var schema: Option<SchemaClass>

    constructor (name: string, location: Location)
      ensures this.name == name && this.location == location
      ensures description == None && required == None && schema == None
    {
      this.name, this.location := name, location;
      description, required, schema := None, None, None;
    }

    method SetDescription(description: string) returns (r: Parameter)
      modifies this`description
      ensures r == this && this.description == Some(description)
    {
      this.description := Some(description);
      r := this;
    }

    method SetRequired(required: bool) returns (r: Parameter)
      modifies this`required
      ensures r == this && this.required == Some(required)
    {
      this.required := Some(required);
      r := this;
    }

    method SetSchema(schema: SchemaClass) returns (r: Parameter)
      modifies this`schema
      ensures r == this && this.schema == Some(schema)
    {
      this.schema := Some(schema);
      r := this;
    }
  }

  //#endregion

  //#region Request

  class Request {
    const response: Response
    /** The owning route; null only while that route's constructor is linking it. */
    var route: Route?
    var description: Option<string>
    var content: Option<Content>

    constructor (response: Response, route: Route?)
      ensures this.response == response && this.route == route
      ensures description == None && content == None
    {
      this.response, this.route := response, route;
      description, content := None, None;
    }

    method SetDescription(description: string) returns (r: Request)
      modifies this`description
      ensures r == this && this.description == Some(description)
    {
      this.description := Some(description);
      r := this;
    }

    method SetContent(content: Content) returns (r: Request)
      modifies this`content
      ensures r == this && this.content == Some(content)
    {
      this.content := Some(content);
      r := this;
    }

    /** Closes a chain on the request back to the route that owns it. */
    method Build() returns (r: Route)
      requires route != null
      ensures r == route
    {
      r := route;
    }
  }

  class Content {
    var entries: seq<ContentEntry>

    constructor ()
      ensures entries == []
    {
      entries := [];
    }

    /** Appends an entry; the ones already there keep their places. */
    method Entry(entry: ContentEntry) returns (r: Content)
      modifies this`entries
      ensures r == this && entries == old(entries) + [entry]
    {
      entries := entries + [entry];
      r := this;
    }
  }

  class ContentEntry {
    const mime: string
    var schema: Option<SchemaClass>
    var examples: map<string, ExampleValue>

    constructor (mime: string)
      ensures this.mime == mime && schema == None && examples == map[]
    {
      this.mime := mime;
      schema, examples := None, map[];
    }

    method SetSchema(schema: SchemaClass) returns (r: ContentEntry)
      modifies this`schema
      ensures r == this && this.schema == Some(schema)
    {
      this.schema := Some(schema);
      r := this;
    }

    /** Records an example under a name, replacing one recorded under that name before. */
    method Example(name: string, example: ExampleValue) returns (r: ContentEntry)
      modifies this`examples
      ensures r == this
      ensures examples.Keys == old(examples.Keys) + {name} && examples[name] == example
      ensures forall k :: k in old(examples) && k != name ==> examples[k] == old(examples[k])
    {
      examples := examples[name := example];
      r := this;
    }
  }

  //#endregion

  //#region Response

  class Response {
    /** The owning route; null only while that route's constructor is linking it. */
    var route: Route?
    var entries: seq<ResponseEntry>

    constructor (route: Route?)
      ensures this.route == route && entries == []
    {
      this.route := route;
      entries := [];
    }

    /** Appends an entry; earlier entries, even ones with the same status, are kept. */
    method Add(entry: ResponseEntry) returns (r: Response)
      modifies this`entries
      ensures r == this && entries == old(entries) + [entry]
    {
      entries := entries + [entry];
      r := this;
    }

    /** Closes a chain on the response back to the route that owns it. */
    method Build() returns (r: Route)
      requires route != null
      ensures r == route
    {
      r := route;
    }
  }

  class ResponseEntry {
    const status: string
    var description: Option<string>
    var content: Option<Content>

    constructor (status: string)
      ensures this.status == status && description == None && content == None
    {
      this.status := status;
      description, content := None, None;
    }

    method SetDescription(description: string) returns (r: ResponseEntry)
      modifies this`description
      ensures r == this && this.description == Some(description)
    {
      this.description := Some(description);
      r := this;
    }

    method SetContent(content: Content) returns (r: ResponseEntry)
      modifies this`content
      ensures r == this && this.content == Some(content)
    {
      this.content := Some(content);
      r := this;
    }
  }

  //#endregion
}
