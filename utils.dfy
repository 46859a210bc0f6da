/**
 * The prediction pipeline of the chat bot: downloading a device's model,
 * fetching the device's latest stored snapshot, projecting the snapshot onto
 * the device's feature schema, and the `Predict` object that waits for a
 * fresh telemetry message, dispatches on the device name and calls the model.
 *
 * The services the pipeline talks to are parameters: `get` is the HTTP
 * fetch, `loads` the deserialisation of a model blob, `predict` the model's
 * inference, `conv` Python's `float()` on a stored value (which may reject it), `scan` the store's
 * query by device, and a finite trace of polls stands for the message bus.
 */
module Utils {
  import opened Wrappers
  import opened Telemetry
  import RaspberryPi

  type Bytes = seq<bv8>

  /** What `requests.get(url).content` gives: the body, or an exception. */
  datatype Fetch = Response(content: Bytes) | Raised

  /** What `download_model` returns: the content, or `False` when the fetch raised. */
  datatype Download = Content(bytes: Bytes) | NoContent

  /** The fetch of the model blob, never raising. */
  function DownloadModel(get: string -> Fetch, url: string): (d: Download)
    ensures d.NoContent? <==> get(url).Raised?
    ensures d.Content? ==> d.bytes == get(url).content
  {
    match get(url)
    case Response(content) => Content(content)
    case Raised => NoContent
  }

  /**
   * The last item the store's query returned for a device: the one loaded
   * last. An empty answer has no last item and the indexing fails.
   */
  function GetDataDynamodb(items: seq<Record>): (r: Option<Record>)
    ensures r.Some? <==> items != []
    ensures r.Some? ==> r.value == items[|items| - 1]
  {
    if items == [] then None else Some(items[|items| - 1])
  }

  /** `items` are in ascending order of `le`, each one no later than the next. */
  ghost predicate Ascending(items: seq<Record>, le: (Record, Record) -> bool) {
    forall i :: 0 <= i < |items| - 1 ==> le(items[i], items[i + 1])
  }

  /**
   * When the query answers in ascending loading order, the record fetched
   * is no earlier than any record stored for the device.
   */
  lemma {:induction false} LatestIsNewest(items: seq<Record>, le: (Record, Record) -> bool)
    requires Ascending(items, le)
    requires forall x, y, z :: le(x, y) && le(y, z) ==> le(x, z)
    requires forall x :: le(x, x)
    ensures GetDataDynamodb(items).Some? ==>
      forall i :: 0 <= i < |items| ==> le(items[i], GetDataDynamodb(items).value)
  {
    if |items| > 1 {
      var front := items[..|items| - 1];
      assert Ascending(front, le) by {
        forall i | 0 <= i < |front| - 1 ensures le(front[i], front[i + 1]) {
          assert front[i] == items[i] && front[i + 1] == items[i + 1];
        }
      }
      LatestIsNewest(front, le);
      var last := items[|items| - 1];
      forall i | 0 <= i < |items| ensures le(items[i], last) {
        if i < |items| - 1 {
          assert le(items[i], front[|front| - 1]);
          assert front[|front| - 1] == items[|items| - 2];
        }
      }
    }
  }

  // ---------------------------------------------------------------------------
  // Feature mapping
  // ---------------------------------------------------------------------------

  /**
   * The record's values for the schema entries it holds, in schema order;
   * an entry the record lacks contributes nothing.
   */
  function Present(schema: seq<string>, val: Record): (values: seq<Value>)
    ensures |values| <= |schema|
    ensures forall v :: v in values ==> v in val.Values
  {
    if schema == [] then []
    else (if schema[0] in val then [val[schema[0]]] else []) + Present(schema[1..], val)
  }

  /**
   * `float()` on each value in turn: the converted values, or `None` when one
   * of them is rejected (Python raises `ValueError` or `TypeError`).
   */
  function ConvertAll(values: seq<Value>, conv: Value -> Option<real>): (r: Option<seq<real>>)
    ensures r.Some? <==> forall i :: 0 <= i < |values| ==> conv(values[i]).Some?
    ensures r.Some? ==> |r.value| == |values|
    ensures r.Some? ==> forall i :: 0 <= i < |values| ==> r.value[i] == conv(values[i]).value
  {
    if values == [] then Some([])
    else
      match (conv(values[0]), ConvertAll(values[1..], conv))
      case (Some(x), Some(xs)) => Some([x] + xs)
      case _ => None
  }

  /** The feature vector of a record under a schema. */
  function Features(schema: seq<string>, val: Record, conv: Value -> Option<real>): (r: Option<seq<real>>)
    ensures r.Some? ==> |r.value| <= |schema|
  {
    ConvertAll(Present(schema, val), conv)
  }

  lemma ConvertOne(v: Value, conv: Value -> Option<real>)
    requires conv(v).Some?
    ensures ConvertAll([v], conv) == Some([conv(v).value])
  {
    var vs := [v];
    assert vs[0] == v;
    assert ConvertAll(vs, conv).Some?;
    var r := ConvertAll(vs, conv).value;
    assert |r| == 1 && r[0] == conv(v).value;
    assert r == [conv(v).value];
  }

  /** Converting two runs of values converts each, and fails when either fails. */
  lemma ConvertAllAppend(xs: seq<Value>, ys: seq<Value>, conv: Value -> Option<real>)
    ensures ConvertAll(xs + ys, conv) ==
      if ConvertAll(xs, conv).Some? && ConvertAll(ys, conv).Some?
      then Some(ConvertAll(xs, conv).value + ConvertAll(ys, conv).value)
      else None
  {
    var zs := xs + ys;
    assert forall i :: 0 <= i < |xs| ==> zs[i] == xs[i];
    assert forall i :: 0 <= i < |ys| ==> zs[|xs| + i] == ys[i];
    if ConvertAll(xs, conv).Some? && ConvertAll(ys, conv).Some? {
      var r := ConvertAll(zs, conv).value;
      assert r == ConvertAll(xs, conv).value + ConvertAll(ys, conv).value by {
        forall i | 0 <= i < |zs| ensures r[i] == (ConvertAll(xs, conv).value + ConvertAll(ys, conv).value)[i] {
          if i >= |xs| {
            assert zs[i] == ys[i - |xs|];
          }
        }
      }
    } else if ConvertAll(xs, conv).None? {
      var i :| 0 <= i < |xs| && conv(xs[i]).None?;
      assert conv(zs[i]).None?;
    } else {
      var i :| 0 <= i < |ys| && conv(ys[i]).None?;
      assert conv(zs[|xs| + i]).None?;
    }
  }

  /** Mapping a schema in two parts maps each part, in order. */
  lemma {:induction false} PresentAppend(a: seq<string>, b: seq<string>, val: Record)
    ensures Present(a + b, val) == Present(a, val) + Present(b, val)
  {
    if a != [] {
      assert (a + b)[0] == a[0] && (a + b)[1..] == a[1..] + b;
      PresentAppend(a[1..], b, val);
    } else {
      assert a + b == b;
    }
  }

  /** An entry the record lacks is skipped: it is as if the schema did not list it. */
  lemma PresentSkipsAbsent(a: seq<string>, key: string, b: seq<string>, val: Record)
    requires key !in val
    ensures Present(a + [key] + b, val) == Present(a + b, val)
  {
    PresentAppend(a + [key], b, val);
    PresentAppend(a, [key], val);
    PresentAppend(a, b, val);
  }

  /**
   * At most one value per schema entry, and one for each entry exactly when
   * the record holds every field the schema lists.
   */
  lemma {:induction false} PresentLength(schema: seq<string>, val: Record)
    ensures |Present(schema, val)| <= |schema|
    ensures |Present(schema, val)| == |schema| <==> forall k :: k in schema ==> k in val
  {
    if schema != [] {
      PresentLength(schema[1..], val);
      assert forall k :: k in schema <==> k == schema[0] || k in schema[1..];
    }
  }

  /** When every schema field is present, entry `i` of the result is the record's value of field `i`. */
  lemma {:induction false} PresentAllFields(schema: seq<string>, val: Record)
    requires forall k :: k in schema ==> k in val
    ensures |Present(schema, val)| == |schema|
    ensures forall i :: 0 <= i < |schema| ==> Present(schema, val)[i] == val[schema[i]]
  {
    if schema != [] {
      assert forall k :: k in schema[1..] ==> k in schema;
      PresentAllFields(schema[1..], val);
    }
  }

  /**
   * What the nested loop of `predict_output` computes: for each schema entry
   * in order, and each key of the record, the value converted by `float()`
   * when the key is that entry.
   */
  method CollectFeatures(schema: seq<string>, val: Record, conv: Value -> Option<real>)
    returns (r: Option<seq<real>>)
    ensures r == Features(schema, val, conv)
  {
    var dataInput: seq<real> := [];
    for i := 0 to |schema|
      invariant Features(schema[..i], val, conv) == Some(dataInput)
    {
      var elt := schema[i];
      PresentAppend(schema[..i], [elt], val);
      assert schema[..i + 1] == schema[..i] + [elt];
      ghost var before := dataInput;
      var keys := val.Keys;
      while keys != {}
        invariant keys <= val.Keys
        invariant elt in val && elt !in keys ==> conv(val[elt]).Some?
        invariant dataInput == before + (if elt in val && elt !in keys then [conv(val[elt]).value] else [])
        decreases keys
      {
        var data :| data in keys;
        if data == elt {
          match conv(val[data]) {
            case None =>
              assert Features(schema, val, conv).None? by {
                PresentAppend(schema[..i + 1], schema[i + 1..], val);
                assert schema == schema[..i + 1] + schema[i + 1..];
                var vs := Present(schema, val);
                assert vs[|Present(schema[..i], val)|] == val[elt];
              }
              return None;
            case Some(x) =>
              dataInput := dataInput + [x];
          }
        }
        keys := keys - {data};
      }
      assert [elt][1..] == [];
      assert Present([elt], val) == if elt in val then [val[elt]] else [];
      if elt in val {
        assert conv(val[elt]).Some?;
        ConvertOne(val[elt], conv);
      }
      assert ConvertAll(Present([elt], val), conv) ==
        if elt in val then Some([conv(val[elt]).value]) else Some([]);
      ConvertAllAppend(Present(schema[..i], val), Present([elt], val), conv);
      assert Features(schema[..i + 1], val, conv) ==
        ConvertAll(Present(schema[..i], val) + Present([elt], val), conv);
    }
    assert schema[..|schema|] == schema;
    return Some(dataInput);
  }

  /**
   * Every metric of a Raspberry Pi snapshot document can be read by the
   * feature mapping: a schema made of document keys yields one value per
   * entry, in schema order.
   */
  lemma SnapshotFeedsSchema(r: RaspberryPi.Raspberry, loadingDatetime: string, schema: seq<string>)
    requires forall k :: k in schema ==> k in RaspberryPi.DocumentKeys
    ensures |Present(schema, RaspberryPi.Json(r, loadingDatetime))| == |schema|
    ensures forall i :: 0 <= i < |schema| ==>
      Present(schema, RaspberryPi.Json(r, loadingDatetime))[i] == RaspberryPi.Json(r, loadingDatetime)[schema[i]]
  {
    PresentAllFields(schema, RaspberryPi.Json(r, loadingDatetime));
  }

  // ---------------------------------------------------------------------------
  // The message consumer
  // ---------------------------------------------------------------------------

  /** A telemetry message as the bus delivers it. */
  datatype Message = Message(uuid: string, device: string, loadingDatetime: string)

  /**
   * One round of the consumer loop: the poll returned nothing, it returned a
   * message whose value may be `None`, or the user interrupted the loop.
   */
  datatype Poll = Empty | Delivered(value: Option<Message>) | Interrupted

  /** Where the consumer stands after some polls: the stored message, and whether the loop has exited. */
  datatype Consumed = Consumed(current: Option<Message>, exited: bool)

  /** The consumer loop over a finite trace of polls, from the stored message `current`. */
  function Consume(current: Option<Message>, trace: seq<Poll>): (r: Consumed)
    ensures r.current == current || Delivered(r.current) in trace
    decreases |trace|
  {
    if trace == [] then Consumed(current, false)
    else match trace[0]
      case Interrupted => Consumed(current, true)
      case Empty => Consume(current, trace[1..])
      case Delivered(None) => Consume(current, trace[1..])
      case Delivered(Some(m)) => Consume(Some(m), trace[1..])
  }

  /** The position of the first interrupt in `trace`, or `|trace|` when there is none. */
  function InterruptAt(trace: seq<Poll>): (k: nat)
    ensures k <= |trace|
    ensures k < |trace| <==> Interrupted in trace
    ensures forall j :: 0 <= j < k ==> trace[j] != Interrupted
  {
    if trace == [] then 0
    else if trace[0] == Interrupted then 0
    else 1 + InterruptAt(trace[1..])
  }

  /** The value of the last message in `trace` that carried one, searching from the end. */
  function LastDelivered(trace: seq<Poll>): Option<Message> {
    if trace == [] then None
    else match trace[|trace| - 1]
      case Delivered(Some(m)) => Some(m)
      case _ => LastDelivered(trace[..|trace| - 1])
  }

  /** Searching a trace from the end, given its first poll. */
  lemma {:induction false} LastDeliveredFront(p: Poll, trace: seq<Poll>, current: Option<Message>)
    ensures LastDelivered([p] + trace).OrElse(current) ==
      LastDelivered(trace).OrElse(if p.Delivered? && p.value.Some? then p.value else current)
    decreases |trace|
  {
    var whole := [p] + trace;
    if trace == [] {
      assert whole[..0] == [];
    } else {
      assert whole[|whole| - 1] == trace[|trace| - 1];
      assert whole[..|whole| - 1] == [p] + trace[..|trace| - 1];
      LastDeliveredFront(p, trace[..|trace| - 1], current);
    }
  }

  /**
   * The consumer exits exactly when the trace holds an interrupt, and then
   * holds the value of the last message that carried one before it; polls
   * with nothing and messages without a value leave the stored message as
   * it was.
   */
  lemma {:induction false} ConsumeKeepsLastMessage(current: Option<Message>, trace: seq<Poll>)
    ensures Consume(current, trace).exited <==> Interrupted in trace
    ensures Consume(current, trace).current == LastDelivered(trace[..InterruptAt(trace)]).OrElse(current)
    decreases |trace|
  {
    if trace != [] && trace[0] != Interrupted {
      var p := trace[0];
      var next := if p.Delivered? && p.value.Some? then p.value else current;
      ConsumeKeepsLastMessage(next, trace[1..]);
      assert Consume(current, trace) == Consume(next, trace[1..]);
      assert Interrupted in trace <==> Interrupted in trace[1..];
      assert trace[..InterruptAt(trace)] == [p] + trace[1..][..InterruptAt(trace[1..])];
      LastDeliveredFront(p, trace[1..][..InterruptAt(trace[1..])], current);
    } else if trace != [] {
      assert trace[..0] == [];
    }
  }

  // ---------------------------------------------------------------------------
  // Prediction
  // ---------------------------------------------------------------------------

  /** The feature lists of each device, from the configuration. */
  datatype Schemas = Schemas(pc1: seq<string>, pc2: seq<string>, raspberry: seq<string>)

  /** What a known device selects: its model URL and its feature schema. */
  datatype Route = Route(url: string, schema: seq<string>)

  /**
   * The exceptions the pipeline lets through: no stored record (`IndexError`),
   * a value `float()` rejects (`ValueError` or `TypeError`), no model content because the
   * download failed and `pickle.loads(False)` raises (`TypeError`), and a
   * blob that does not deserialise.
   */
  datatype Error = NoRecord | NotNumeric | NoModel | BadModel

  /**
   * How `predict_output` ends: it returns the vector and the prediction, it
   * raises, or it is still inside the consumer loop when the trace ends.
   */
  datatype Outcome<P> = Returned(data: seq<real>, prediction: P) | Failed(error: Error) | Polling

  /**
   * The batch handed to the model: the vector as a single sample, with two
   * zeros appended for `pc2`.
   */
  function ModelInput(device: string, dataInput: seq<real>): (batch: seq<seq<real>>)
    ensures |batch| == 1
    ensures device == "pc2" ==>
      |batch[0]| == |dataInput| + 2 && batch[0][..|dataInput|] == dataInput &&
      batch[0][|dataInput|] == 0.0 && batch[0][|dataInput| + 1] == 0.0
    ensures device != "pc2" ==> batch[0] == dataInput
  {
    if device == "pc2" then [dataInput + [0.0, 0.0]] else [dataInput]
  }

  /** Download, deserialise and run the model on the vector. */
  function Infer<M, P>(device: string, url: string, dataInput: seq<real>,
                       get: string -> Fetch, loads: Bytes -> Option<M>,
                       predict: (M, seq<seq<real>>) -> P): (r: Outcome<P>)
    ensures r.Returned? <==> get(url).Response? && loads(get(url).content).Some?
    ensures r.Returned? ==>
      r.data == dataInput && r.prediction == predict(loads(get(url).content).value, ModelInput(device, dataInput))
    ensures r == Failed(NoModel) <==> get(url).Raised?
    ensures !r.Polling?
  {
    match DownloadModel(get, url)
    case NoContent => Failed(NoModel)
    case Content(raw) =>
      match loads(raw)
      case None => Failed(BadModel)
      case Some(model) => Returned(dataInput, predict(model, ModelInput(device, dataInput)))
  }

  /**
   * The outcome of `predict_output` for `device`, where `route` is what the
   * device name selects (`None` for a name not known).
   */
  function Pipeline<M, P>(device: string, route: Option<Route>, trace: seq<Poll>,
                          scan: string -> seq<Record>, conv: Value -> Option<real>,
                          get: string -> Fetch, loads: Bytes -> Option<M>,
                          predict: (M, seq<seq<real>>) -> P): (r: Outcome<P>)
    ensures r.Polling? ==> route.Some? && Interrupted !in trace
    ensures r.Returned? && route.None? ==> r.data == []
    ensures r.Returned? && route.Some? ==> |r.data| <= |route.value.schema|
  {
    match route
    case None => Infer(device, "", [], get, loads, predict)
    case Some(Route(url, schema)) =>
      if Interrupted !in trace then Polling
      else match GetDataDynamodb(scan(device))
        case None => Failed(NoRecord)
        case Some(val) =>
          match Features(schema, val, conv)
          case None => Failed(NotNumeric)
          case Some(dataInput) => Infer(device, url, dataInput, get, loads, predict)
  }

  /**
   * A known device returns exactly when the consumer exits, the store has a
   * record, every present field converts, and the model is fetched and
   * deserialised; it then returns the unpadded vector of the latest record
   * and the model's answer on the (padded for `pc2`) single-sample batch.
   */
  lemma KnownDeviceReturns<M, P>(device: string, url: string, schema: seq<string>, trace: seq<Poll>,
                                 scan: string -> seq<Record>, conv: Value -> Option<real>,
                                 get: string -> Fetch, loads: Bytes -> Option<M>,
                                 predict: (M, seq<seq<real>>) -> P)
    ensures var r := Pipeline(device, Some(Route(url, schema)), trace, scan, conv, get, loads, predict);
      r.Returned? <==>
        && Interrupted in trace
        && scan(device) != []
        && Features(schema, scan(device)[|scan(device)| - 1], conv).Some?
        && get(url).Response?
        && loads(get(url).content).Some?
    ensures var r := Pipeline(device, Some(Route(url, schema)), trace, scan, conv, get, loads, predict);
      r.Returned? ==>
        && Some(r.data) == Features(schema, scan(device)[|scan(device)| - 1], conv)
        && r.prediction == predict(loads(get(url).content).value, ModelInput(device, r.data))
  {
  }

  /**
   * The failures of a known device, in the order the stages run; none of the
   * earlier ones depends on the model service.
   */
  lemma KnownDeviceFails<M, P>(device: string, url: string, schema: seq<string>, trace: seq<Poll>,
                               scan: string -> seq<Record>, conv: Value -> Option<real>,
                               get: string -> Fetch, loads: Bytes -> Option<M>,
                               predict: (M, seq<seq<real>>) -> P)
    ensures var r := Pipeline(device, Some(Route(url, schema)), trace, scan, conv, get, loads, predict);
      && (r.Polling? <==> Interrupted !in trace)
      && (r == Failed(NoRecord) <==> Interrupted in trace && scan(device) == [])
      && (r == Failed(NotNumeric) <==>
            Interrupted in trace && scan(device) != [] &&
            Features(schema, scan(device)[|scan(device)| - 1], conv).None?)
  {
  }

  /**
   * A name that is not a known device skips the consumer and the store: the
   * model at the empty URL is run on an empty vector, whatever the bus and
   * the store hold.
   */
  lemma UnknownDeviceSkipsBusAndStore<M, P>(device: string, trace: seq<Poll>, trace': seq<Poll>,
                                            scan: string -> seq<Record>, scan': string -> seq<Record>,
                                            conv: Value -> Option<real>, conv': Value -> Option<real>,
                                            get: string -> Fetch, loads: Bytes -> Option<M>,
                                            predict: (M, seq<seq<real>>) -> P)
    requires device != "pc1" && device != "pc2" && device != "raspberry"
    ensures Pipeline(device, None, trace, scan, conv, get, loads, predict) ==
            Pipeline(device, None, trace', scan', conv', get, loads, predict)
    ensures Pipeline(device, None, trace, scan, conv, get, loads, predict).Returned? ==>
            Pipeline(device, None, trace, scan, conv, get, loads, predict).data == [] &&
            Pipeline(device, None, trace, scan, conv, get, loads, predict).prediction ==
              predict(loads(get("").content).value, [[]])
  {
  }

  /**
   * When the download at the empty URL raises, as `requests.get("")` does for
   * a URL without a scheme, a name that is not a known device always ends in
   * the failure of `pickle.loads(False)`; the model never runs.
   */
  lemma UnknownDeviceFails<M, P>(device: string, trace: seq<Poll>,
                                 scan: string -> seq<Record>, conv: Value -> Option<real>,
                                 get: string -> Fetch, loads: Bytes -> Option<M>,
                                 predict: (M, seq<seq<real>>) -> P)
    requires device != "pc1" && device != "pc2" && device != "raspberry"
    requires get("").Raised?
    ensures Pipeline(device, None, trace, scan, conv, get, loads, predict) == Failed(NoModel)
  {
  }

  /**
   * The two-field example: `pc2` with schema `[x, y]` and a record holding
   * 1.5 and 2.0 returns `[1.5, 2.0]`, and the model sees `[[1.5, 2.0, 0, 0]]`.
   */
  lemma Pc2Example<M, P>(url: string, trace: seq<Poll>, scan: string -> seq<Record>,
                         conv: Value -> Option<real>, get: string -> Fetch, blob: Bytes, model: M,
                         loads: Bytes -> Option<M>, predict: (M, seq<seq<real>>) -> P)
    requires Interrupted in trace
    requires scan("pc2") == [map["x" := Float(1.5), "y" := Float(2.0), "uuid" := Text("u")]]
    requires conv(Float(1.5)) == Some(1.5) && conv(Float(2.0)) == Some(2.0)
    requires get(url) == Response(blob) && loads(blob) == Some(model)
    ensures Pipeline("pc2", Some(Route(url, ["x", "y"])), trace, scan, conv, get, loads, predict) ==
            Returned([1.5, 2.0], predict(model, [[1.5, 2.0, 0.0, 0.0]]))
  {
    var val := scan("pc2")[0];
    var schema := ["x", "y"];
    PresentAllFields(schema, val);
    var vs := Present(schema, val);
    assert vs == [Float(1.5), Float(2.0)];
    var v := ConvertAll(vs, conv).value;
    assert v == [1.5, 2.0];
    assert [1.5, 2.0] + [0.0, 0.0] == [1.5, 2.0, 0.0, 0.0];
  }

  /**
   * A schema field missing from the record is not an error: the vector of a
   * Raspberry Pi record lacking `gpu_temp` holds only `cpu_temp`.
   */
  lemma MissingFieldIsSkipped<M, P>(url: string, trace: seq<Poll>, scan: string -> seq<Record>,
                                    conv: Value -> Option<real>, get: string -> Fetch, blob: Bytes, model: M,
                                    loads: Bytes -> Option<M>, predict: (M, seq<seq<real>>) -> P)
    requires Interrupted in trace
    requires scan("raspberry") == [map["cpu_temp" := Float(41.0)]]
    requires conv(Float(41.0)) == Some(41.0)
    requires get(url) == Response(blob) && loads(blob) == Some(model)
    ensures Pipeline("raspberry", Some(Route(url, ["cpu_temp", "gpu_temp"])), trace, scan, conv, get, loads, predict) ==
            Returned([41.0], predict(model, [[41.0]]))
  {
    var val := scan("raspberry")[0];
    PresentSkipsAbsent(["cpu_temp"], "gpu_temp", [], val);
    assert ["cpu_temp"] + ["gpu_temp"] + [] == ["cpu_temp", "gpu_temp"];
    assert ["cpu_temp"] + [] == ["cpu_temp"];
    var vs := Present(["cpu_temp"], val);
    assert vs == [Float(41.0)];
    ConvertOne(Float(41.0), conv);
  }

  /**
   * The prediction object: the three model URLs it was built with, and the
   * last message the consumer stored.
   */
  class Predict {
    const pc1ModelUrl: string
    const pc2ModelUrl: string
    const rasbModelUrl: string
    var currentMessage: Option<Message>

    constructor (urlPc1: string, urlPc2: string, urlRasb: string)
      ensures pc1ModelUrl == urlPc1 && pc2ModelUrl == urlPc2 && rasbModelUrl == urlRasb
      ensures currentMessage == None
    {
      pc1ModelUrl := urlPc1;
      pc2ModelUrl := urlPc2;
      rasbModelUrl := urlRasb;
      currentMessage := None;
    }

    /** The URL and schema a device name selects; only the three known names select one. */
    function Dispatch(device: string, schemas: Schemas): (r: Option<Route>)
      ensures r.Some? <==> device == "pc1" || device == "pc2" || device == "raspberry"
      ensures device == "pc1" ==> r == Some(Route(pc1ModelUrl, schemas.pc1))
      ensures device == "pc2" ==> r == Some(Route(pc2ModelUrl, schemas.pc2))
      ensures device == "raspberry" ==> r == Some(Route(rasbModelUrl, schemas.raspberry))
    {
      if device == "pc1" then Some(Route(pc1ModelUrl, schemas.pc1))
      else if device == "pc2" then Some(Route(pc2ModelUrl, schemas.pc2))
      else if device == "raspberry" then Some(Route(rasbModelUrl, schemas.raspberry))
      else None
    }

    /**
     * The consumer loop on `topic`, over a finite trace of polls: stores each
     * message value that is not `None`, and stops at an interrupt.
     */
    method GetDataConsumer(topic: string, trace: seq<Poll>) returns (exited: bool)
      modifies this`currentMessage
      ensures Consumed(currentMessage, exited) == Consume(old(currentMessage), trace)
    {
      exited := false;
      var i := 0;
      while i < |trace|
        invariant 0 <= i <= |trace|
        invariant Consume(old(currentMessage), trace) == Consume(currentMessage, trace[i..])
      {
        var msg := trace[i];
        assert trace[i..][0] == msg && trace[i..][1..] == trace[i + 1..];
        if msg == Interrupted {
          exited := true;
          break;
        }
        if msg != Empty {
          var message := msg.value;
          if message.Some? {
            currentMessage := message;
          }
        }
        i := i + 1;
      }
    }

    /**
     * `predict_output`: dispatch on the device name, wait for a message,
     * take the latest stored record, build its feature vector, then
     * download the model and run it.
     */
    method PredictOutput<M, P>(device: string, schemas: Schemas, trace: seq<Poll>,
                               scan: string -> seq<Record>, conv: Value -> Option<real>,
                               get: string -> Fetch, loads: Bytes -> Option<M>,
                               predict: (M, seq<seq<real>>) -> P)
      returns (r: Outcome<P>)
      modifies this`currentMessage
      ensures r == Pipeline(device, Dispatch(device, schemas), trace, scan, conv, get, loads, predict)
      ensures currentMessage ==
        if Dispatch(device, schemas).Some? then Consume(old(currentMessage), trace).current
        else old(currentMessage)
    {
      var url := "";
      var dataInput: seq<real> := [];
      var schema: Option<seq<string>> := None;
      if device == "pc1" {
        url, schema := pc1ModelUrl, Some(schemas.pc1);
      } else if device == "pc2" {
        url, schema := pc2ModelUrl, Some(schemas.pc2);
      } else if device == "raspberry" {
        url, schema := rasbModelUrl, Some(schemas.raspberry);
      }
      if schema.Some? {
        var exited := GetDataConsumer(device, trace);
        ConsumeKeepsLastMessage(old(currentMessage), trace);
        if !exited {
          return Polling;
        }
        var val := GetDataDynamodb(scan(device));
        if val.None? {
          return Failed(NoRecord);
        }
        var features := CollectFeatures(schema.value, val.value, conv);
        if features.None? {
          return Failed(NotNumeric);
        }
        dataInput := features.value;
      }
      var modelRaw := DownloadModel(get, url);
      if modelRaw.NoContent? {
        return Failed(NoModel);
      }
      var model := loads(modelRaw.bytes);
      if model.None? {
        return Failed(BadModel);
      }
      var data := dataInput;
      var prediction := predict(model.value, ModelInput(device, dataInput));
      return Returned(data, prediction);
    }
  }
}
