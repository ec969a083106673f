/**
  `EQLSearch._create_events` and `EQLSearch.search`: sanitise the records
  when they come from YAML, wrap each one into an event unless no event type
  is given, and hand the result to the query engine. The engine
  (`_execute_eql_query`, all of it calls into the `eql` library) enters as
  the parameter `engine`.
 */
module EqlSearch {
  import opened Wrappers
  import opened Tree
  import opened DateSerializer

  /** A field name, or the positional default `0` that `search` uses. */
  datatype TimestampKey = Field(name: string) | Position(index: int)

  /** `eql.Event(event_type, timestamp_key, item)`, taken as an opaque triple. */
  datatype Event = Event(eventType: string, timestampKey: TimestampKey, data: Node)

  /**
    One element of the list `_create_events` returns: a record as it is, or
    an event wrapping one. Either way the caller gets a plain list, so an
    empty result is the same empty list in both cases.
   */
  datatype Item = Record(record: Node) | Wrapped(event: Event)

  /** The record an element carries. */
  function Payload(item: Item): Node
  {
    match item
    case Record(n) => n
    case Wrapped(e) => e.data
  }

  datatype SearchError = ValueError(message: string)

  const InvalidDataTypeMessage: string := "date_type should be 'json' or 'yaml'"

  /** `not event_type`: no event type, or the empty string. */
  predicate Falsy(eventType: Option<string>)
  {
    eventType == None || eventType == Some("")
  }

  predicate ValidDataType(dataType: string)
  {
    dataType == "json" || dataType == "yaml"
  }

  /** Lines 21-22: YAML data goes through `_serialize_date` as one list; anything else is passed on. */
  function Sanitise(data: seq<Node>, dataType: string, render: DateValue -> string): (items: seq<Node>)
    ensures |items| == |data|
    ensures dataType == "yaml" ==> forall i :: 0 <= i < |data| ==> items[i] == SerializeDate(data[i], render)
    ensures dataType != "yaml" ==> items == data
  {
    if dataType == "yaml" then
      SerializeDateOfList(data, render);
      SerializeDate(List(data), render).elems
    else
      data
  }

  /** The list of records, returned as is. */
  function AsRecords(items: seq<Node>): seq<Item>
  {
    seq(|items|, i requires 0 <= i < |items| => Record(items[i]))
  }

  /** The events the `for` loop has appended after walking `items`. */
  function Wrap(items: seq<Node>, eventType: string, timestampKey: TimestampKey): seq<Item>
  {
    if items == [] then []
    else Wrap(items[..|items| - 1], eventType, timestampKey) + [Wrapped(Event(eventType, timestampKey, items[|items| - 1]))]
  }

  /** One event per record, in order: the i-th event wraps the i-th record. */
  lemma {:induction false} WrapInOrder(items: seq<Node>, eventType: string, timestampKey: TimestampKey)
    ensures |Wrap(items, eventType, timestampKey)| == |items|
    ensures forall i :: 0 <= i < |items| ==>
              Wrap(items, eventType, timestampKey)[i] == Wrapped(Event(eventType, timestampKey, items[i]))
  {
    if items != [] {
      WrapInOrder(items[..|items| - 1], eventType, timestampKey);
    }
  }

  /** The list `_create_events` returns. */
  function CreatedEvents(data: seq<Node>, dataType: string, eventType: Option<string>,
                         timestampKey: TimestampKey, render: DateValue -> string): seq<Item>
  {
    var items := Sanitise(data, dataType, render);
    if Falsy(eventType) then AsRecords(items) else Wrap(items, eventType.value, timestampKey)
  }

  /**
    The result has one element per record, in order. When the event type is
    falsy each element is the (sanitised) record itself; otherwise it is the
    event built from the given event type, the timestamp key and that record.
   */
  lemma CreatedEventsContents(data: seq<Node>, dataType: string, eventType: Option<string>,
                              timestampKey: TimestampKey, render: DateValue -> string)
    ensures var c := CreatedEvents(data, dataType, eventType, timestampKey, render);
      && |c| == |data|
      && (Falsy(eventType) ==>
            forall i :: 0 <= i < |data| ==> c[i] == Record(Sanitise(data, dataType, render)[i]))
      && (!Falsy(eventType) ==>
            forall i :: 0 <= i < |data| ==>
              c[i] == Wrapped(Event(eventType.value, timestampKey, Sanitise(data, dataType, render)[i])))
  {
    if !Falsy(eventType) {
      WrapInOrder(Sanitise(data, dataType, render), eventType.value, timestampKey);
    }
  }

  /** Empty data gives the empty list, whether or not an event type is given. */
  lemma CreatedEventsEmpty(dataType: string, eventType: Option<string>,
                           timestampKey: TimestampKey, render: DateValue -> string)
    ensures CreatedEvents([], dataType, eventType, timestampKey, render) == []
  {
    CreatedEventsContents([], dataType, eventType, timestampKey, render);
  }

  /** Only YAML data is serialised: for any other data type every payload is the input record untouched. */
  lemma CreatedEventsUntouchedUnlessYaml(data: seq<Node>, dataType: string, eventType: Option<string>,
                                         timestampKey: TimestampKey, render: DateValue -> string)
    requires dataType != "yaml"
    ensures |CreatedEvents(data, dataType, eventType, timestampKey, render)| == |data|
    ensures forall i :: 0 <= i < |data| ==> Payload(CreatedEvents(data, dataType, eventType, timestampKey, render)[i]) == data[i]
    ensures Falsy(eventType) ==> CreatedEvents(data, dataType, eventType, timestampKey, render) == AsRecords(data)
  {
    CreatedEventsContents(data, dataType, eventType, timestampKey, render);
  }

  /** For YAML data, no record or event payload handed on holds a date value. */
  lemma CreatedEventsDateFreeForYaml(data: seq<Node>, eventType: Option<string>,
                                     timestampKey: TimestampKey, render: DateValue -> string)
    ensures var c := CreatedEvents(data, "yaml", eventType, timestampKey, render);
      forall i :: 0 <= i < |c| ==> DateFree(Payload(c[i]))
  {
    CreatedEventsContents(data, "yaml", eventType, timestampKey, render);
    forall i | 0 <= i < |data| ensures DateFree(SerializeDate(data[i], render)) {
      SerializeDateRemovesDates(data[i], render);
    }
  }

  /** `_create_events`: builds the event list with one `append` per record. */
  method CreateEvents(data: seq<Node>, dataType: string, eventType: Option<string>,
                      timestampKey: TimestampKey, render: DateValue -> string) returns (created: seq<Item>)
    ensures created == CreatedEvents(data, dataType, eventType, timestampKey, render)
    ensures |created| == |data|
    ensures Falsy(eventType) ==> forall i :: 0 <= i < |created| ==> created[i].Record?
    ensures !Falsy(eventType) ==> forall i :: 0 <= i < |created| ==> created[i].Wrapped?
  {
    var eqlEvents: seq<Item> := [];
    var items := data;
    if dataType == "yaml" {
      SerializeDateOfList(items, render);
      items := SerializeDate(List(items), render).elems;
    }
    if Falsy(eventType) {
      return AsRecords(items);
    }
    for i := 0 to |items|
      invariant eqlEvents == Wrap(items[..i], eventType.value, timestampKey)
    {
      assert items[..i + 1][..i] == items[..i];
      eqlEvents := eqlEvents + [Wrapped(Event(eventType.value, timestampKey, items[i]))];
    }
    assert items[..|items|] == items;
    WrapInOrder(items, eventType.value, timestampKey);
    return eqlEvents;
  }

  /**
    `search`: a data type other than 'json' or 'yaml' is refused with a
    ValueError before anything else happens, whatever the data and the
    engine; otherwise the engine's answer on the created events is returned.
   */
  method Search(engine: (seq<Item>, string) -> Option<seq<Node>>, render: DateValue -> string,
                data: seq<Node>, query: string, dataType: string := "json",
                eventType: Option<string> := None, timestampKey: TimestampKey := Position(0))
    returns (result: Result<Option<seq<Node>>, SearchError>)
    ensures result.Failure? <==> !ValidDataType(dataType)
    ensures result.Failure? ==> result.error == ValueError(InvalidDataTypeMessage)
    ensures result.Success? ==> result.value == engine(CreatedEvents(data, dataType, eventType, timestampKey, render), query)
  {
    if dataType != "json" && dataType != "yaml" {
      return Failure(ValueError(InvalidDataTypeMessage));
    }
    var eqlEvents := CreateEvents(data, dataType, eventType, timestampKey, render);
    var searchResult := engine(eqlEvents, query);
    return Success(searchResult);
  }
}
