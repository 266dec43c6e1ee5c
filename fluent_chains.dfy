/**
 * Whole fluent chains written against the builder's contracts, showing what a
 * caller can rely on without looking inside the builder.
 */
module FluentChains {
  import opened Wrappers
  import opened SwaggerDef
  import Decimal

  /**
   * route().id("getUser").response().add(withStatus(200).description("OK")).build()
   *   .add(parameter("id", PATH).required(true).schema(intClass))
   */
  method GetUserRoute(intClass: SchemaClass) returns (rt: Route)
    ensures rt.Valid()
    ensures rt.id == Some("getUser") && rt.description == None
    ensures |rt.response.entries| == 1
    ensures rt.response.entries[0].status == "200" && rt.response.entries[0].description == Some("OK")
    ensures |rt.parameters| == 1 && rt.parameters[0].name == "id" && rt.parameters[0].location == Path
    ensures rt.parameters[0].required == Some(true) && rt.parameters[0].schema == Some(intClass)
    ensures rt.request.description == None && rt.request.content == None
  {
    var start := NewRoute();
    var named := start.SetId("getUser");
    var ok := WithStatusCode(200);
    Decimal.RenderingOfOk();
    ok := ok.SetDescription("OK");
    var response := named.response.Add(ok);
    var back := response.Build();
    var id := NewParameter("id", Path);
    id := id.SetRequired(true);
    id := id.SetSchema(intClass);
    rt := back.Add(id);
  }

  /** Two entries with the same status are both kept, in the order they were added. */
  method DuplicateStatusesKept() returns (rt: Route)
    ensures rt.Valid()
    ensures |rt.response.entries| == 2 && rt.response.entries[0] != rt.response.entries[1]
    ensures rt.response.entries[0].status == "200" && rt.response.entries[1].status == "200"
    ensures rt.response.entries[0].description == Some("first")
    ensures rt.response.entries[1].description == Some("second")
  {
    rt := NewRoute();
    var first := WithStatusCode(200);
    first := first.SetDescription("first");
    var second := WithStatus("200");
    second := second.SetDescription("second");
    Decimal.RenderingOfOk();
    var response := rt.response.Add(first);
    response := response.Add(second);
  }

  /** A request body with one JSON entry carrying two examples, the second name written twice. */
  method RequestWithExamples(schema: SchemaClass, a: ExampleValue, b: ExampleValue, c: ExampleValue) returns (rt: Route)
    ensures rt.Valid()
    ensures rt.request.content.Some?
    ensures |rt.request.content.value.entries| == 1
    ensures rt.request.content.value.entries[0].mime == "application/json"
    ensures rt.request.content.value.entries[0].schema == Some(schema)
    ensures rt.request.content.value.entries[0].examples == map["one" := a, "two" := c]
  {
    rt := NewRoute();
    var entry := WithMime("application/json");
    entry := entry.SetSchema(schema);
    entry := entry.Example("one", a);
    entry := entry.Example("two", b);
    entry := entry.Example("two", c);
    var body := NewContent();
    body := body.Entry(entry);
    var request := rt.request.SetContent(body);
  }
}
