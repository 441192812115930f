/** The context-injecting middlewares. Each stage writes its keys into the
    per-event `data` dictionary, then either calls the next stage once with
    the same event and dictionary and returns what it returns, or drops the
    event and returns `None`. */
module Middlewares {
  import opened Wrappers
  import opened SkipUpdates

  /** An object put into the handler data (the application, a factory, ...). */
  datatype Value = Ref(tag: string)

  /** The per-event `data` dictionary, shared by every stage and the handler. */
  class Data {
    var entries: map<string, Value>

    constructor (entries: map<string, Value>)
      ensures this.entries == entries
    {
      this.entries := entries;
    }
  }

  /** The next stage: it records every call with the data it saw and
      returns a fixed result. */
  class Handler {
    var calls: seq<(Update, map<string, Value>)>
    const result: Option<Value>

    constructor (result: Option<Value>)
      ensures calls == [] && this.result == result
    {
      calls := [];
      this.result := result;
    }

    method Handle(event: Update, data: Data) returns (r: Option<Value>)
      modifies this
      ensures calls == old(calls) + [(event, data.entries)] && r == result
    {
      calls := calls + [(event, data.entries)];
      r := result;
    }
  }

  /** The host's own middleware: puts the application under "app". */
  class AppMiddleware {
    const app: Value

    constructor (app: Value)
      ensures this.app == app
    {
      this.app := app;
    }

    method Call(handler: Handler, event: Update, data: Data) returns (r: Option<Value>)
      modifies data, handler
      ensures data.entries == old(data.entries)["app" := app]
      ensures handler.calls == old(handler.calls) + [(event, data.entries)]
      ensures r == handler.result
    {
      data.entries := data.entries["app" := app];
      r := handler.Handle(event, data);
    }
  }

  /** The database plugin's middleware: puts the object it was built with
      under "db_manager:sessionmaker". */
  class SessionMiddleware {
    const sessionmaker: Value

    constructor (sessionmaker: Value)
      ensures this.sessionmaker == sessionmaker
    {
      this.sessionmaker := sessionmaker;
    }

    method Call(handler: Handler, event: Update, data: Data) returns (r: Option<Value>)
      modifies data, handler
      ensures data.entries == old(data.entries)["db_manager:sessionmaker" := sessionmaker]
      ensures handler.calls == old(handler.calls) + [(event, data.entries)]
      ensures r == handler.result
    {
      data.entries := data.entries["db_manager:sessionmaker" := sessionmaker];
      r := handler.Handle(event, data);
    }
  }

  /** The quotes plugin's middleware: puts the quote service under
      "quote_service", then drops messages the skipper rejects. */
  class QuoteMiddleware {
    const quoteService: Value
    const skipInterval: int

    constructor (quoteService: Value, skipInterval: int)
      ensures this.quoteService == quoteService && this.skipInterval == skipInterval
    {
      this.quoteService := quoteService;
      this.skipInterval := skipInterval;
    }

    method Call(nowUs: int, handler: Handler, event: Update, data: Data) returns (r: Option<Value>)
      modifies data, handler
      ensures data.entries == old(data.entries)["quote_service" := quoteService]
      ensures ShouldSkip(nowUs, event, skipInterval) ==> r == None && handler.calls == old(handler.calls)
      ensures !ShouldSkip(nowUs, event, skipInterval) ==>
                handler.calls == old(handler.calls) + [(event, data.entries)] && r == handler.result
    {
      data.entries := data.entries["quote_service" := quoteService];
      if ShouldSkip(nowUs, event, skipInterval) {
        return None;
      }
      r := handler.Handle(event, data);
    }
  }

  /** The age limit the rest middleware applies to messages. */
  const RestMessageAge := 30

  /** The rest plugin's middleware: puts the time zone and the unit-of-work
      factory into the data, then drops messages older (within the day) than
      30 seconds; callback queries always pass. */
  class RestMiddleware {
    const uowFactory: Value
    const appTzinfo: Value

    constructor (uowFactory: Value, appTzinfo: Value)
      ensures this.uowFactory == uowFactory && this.appTzinfo == appTzinfo
    {
      this.uowFactory := uowFactory;
      this.appTzinfo := appTzinfo;
    }

    method Call(nowUs: int, handler: Handler, event: Update, data: Data) returns (r: Option<Value>)
      modifies data, handler
      ensures data.entries == old(data.entries)["app_tzinfo" := appTzinfo]["uow_factory" := uowFactory]
      ensures ShouldSkip(nowUs, event, RestMessageAge) ==> r == None && handler.calls == old(handler.calls)
      ensures !ShouldSkip(nowUs, event, RestMessageAge) ==>
                handler.calls == old(handler.calls) + [(event, data.entries)] && r == handler.result
    {
      data.entries := data.entries["app_tzinfo" := appTzinfo];
      data.entries := data.entries["uow_factory" := uowFactory];
      if event.Message? && AgeSeconds(nowUs, event.date) > RestMessageAge {
        return None;
      }
      r := handler.Handle(event, data);
    }
  }
}
