# Device telemetry prediction pipeline — a Dafny model

This project models the core of a small predictive-maintenance system that
watches three devices (a Raspberry Pi, `pc1` and `pc2`):

- **The chat bot's prediction pipeline** (`Utils`, from `telegrambot/utils.py`).
  - `download_model` fetches a model blob and never raises.
  - `get_data_dynamodb` takes the last record the store returns for a device.
  - The class `Predict` stores the three model URLs and the last consumed message.
  - Its consumer loop stores each message value that is not `None`.
  - `predict_output` dispatches on the device name and waits for a message.
    It then projects the device's latest record onto the device's feature schema.
    For `pc2` it pads the vector with two zeros. The padded, single-sample batch goes to the model.
- **The Raspberry Pi snapshot** (`RaspberryPi`, from `generators/raspberrypi/raspberry.py`).
  - It is an immutable record of readings.
  - It parses the `vcgencmd get_throttled` output.
  - It builds the fixed 15-key document that the pipeline later reads by key name.

The supporting modules are small:

- `Wrappers` defines `Option`.
- `Telemetry` defines the snapshot value type and `Record = map<string, Value>`.
- `Strings` models Python's `str.split` on one character.
  It proves that `split` and `join` are inverses, and it relates the first two pieces to index arithmetic.

The services the code calls are function-typed parameters:

- `get` stands for `requests.get(url).content`. It either gives a body or raises.
- `loads` stands for `pickle.loads`.
- `predict` stands for the model's `predict`.
- `conv` stands for `float()` on a stored value. It gives `None` where Python raises `ValueError` or `TypeError`.
- `scan` is the store's answer for a device.
- The message bus is a finite trace of polls: `Empty`, `Delivered(value)`, or `Interrupted` (the `KeyboardInterrupt` that ends the loop).

`predict_output` has three results, the `Outcome` datatype:

- `Returned(data, prediction)`.
- `Failed(error)`, one constructor per exception that escapes it.
- `Polling`, when the trace ends with the consumer still in its `while True` loop.

The model follows the code, in these places where a fail-fast design would do otherwise:

- A schema field missing from the record is skipped silently. It does not raise an error (`MissingFieldIsSkipped`).
- An unknown device name still reaches the model download:
  - the URL stays `""`;
  - the vector stays empty;
  - the consumer and the store are skipped.
  - `requests.get("")` raises for a URL without a scheme, so the request ends in `Failed(NoModel)` (`UnknownDeviceFails`).
- A failed download returns `False`. `pickle.loads(False)` then raises `TypeError`. The model records this as `Failed(NoModel)`.
- The consumer loop has no timeout. Only an interrupt ends it.
- The message it stores in `current_message` is never read by `predict_output`.

## Model

| member | source | states |
|---|---|---|
| Utils.DownloadModel | telegrambot/utils.py:13-23 | never fails: yields the response content when the fetch succeeds and the `False` marker exactly when it raises |
| Utils.GetDataDynamodb | telegrambot/utils.py:26-35 | yields a record exactly when the query answer is non-empty, and then it is the answer's last item |
| Utils.LatestIsNewest | telegrambot/utils.py:32-35 | when the answer is in ascending loading order (a reflexive, transitive order), the fetched record is no earlier than any stored record for the device |
| Utils.Present | telegrambot/utils.py:99-103 | the values the nested loop finds, in schema order: never more than the schema has entries, each a value of the record |
| Utils.Features | telegrambot/utils.py:99-103 | the feature vector, when every found value converts, is never longer than the schema |
| Utils.ConvertAll | telegrambot/utils.py:103 | converting the values succeeds exactly when every value converts; then it has one number per value, each the conversion of the value at the same position |
| Utils.CollectFeatures | telegrambot/utils.py:99-103 | the nested loop over schema entries and record keys computes the feature vector of the record: the converted values of the present schema entries, in schema order, or failure when a conversion fails |
| Utils.PresentAppend | telegrambot/utils.py:99-103 | the values follow schema order: mapping a schema split in two gives the first part's values followed by the second part's |
| Utils.PresentSkipsAbsent | telegrambot/utils.py:100-103 | a schema entry the record lacks contributes nothing, as if the schema did not list it |
| Utils.PresentLength | telegrambot/utils.py:99-103 | the vector is never longer than the schema, and has the schema's length exactly when every schema field is in the record |
| Utils.PresentAllFields | telegrambot/utils.py:99-103 | when every schema field is present, position i holds the record's value for schema entry i |
| Utils.SnapshotFeedsSchema | generators/raspberrypi/raspberry.py:159-175 | a schema made of snapshot document keys reads one value per entry from any Raspberry Pi document, in schema order |
| Utils.Consume | telegrambot/utils.py:64-80 | the consumer loop over a trace: the stored message afterwards is the one before or the value of a message in the trace |
| Utils.ConsumeKeepsLastMessage | telegrambot/utils.py:64-80 | the consumer exits exactly when the trace holds an interrupt; the stored message is then the last non-`None` message value before the first interrupt, or the previous one when there is none |
| Utils.LastDeliveredFront | telegrambot/utils.py:66-73 | searching for the last message value from the end agrees with processing the first poll and then searching the rest |
| Utils.ModelInput | telegrambot/utils.py:136-139 | the batch holds one sample; for `pc2` it is the vector followed by exactly two zeros, with the vector as its prefix; for any other device it is the vector unchanged |
| Utils.Infer | telegrambot/utils.py:129-139 | download, deserialise and predict: returns exactly when the fetch gives content that deserialises, then with the vector unchanged and the model's answer on the batch; a raising fetch gives `NoModel`; it never keeps polling |
| Utils.Pipeline | telegrambot/utils.py:92-141 | the outcome of predicting for a device: only a known device can keep polling, and only when no interrupt comes; an unknown name can return only an empty vector, a known one never a vector longer than its schema |
| Utils.KnownDeviceReturns | telegrambot/utils.py:92-141 | a known device returns exactly when the consumer exits, the store has a record, every present field converts, and the model downloads and deserialises; the returned data is the unpadded vector of the latest record, and the prediction is the model applied to the possibly padded batch |
| Utils.KnownDeviceFails | telegrambot/utils.py:97-125 | for a known device, it keeps polling exactly when no interrupt comes, fails for a missing record exactly when the store is empty, and fails for a non-numeric value exactly when the latest record's conversion fails; none of these depends on the model service |
| Utils.UnknownDeviceSkipsBusAndStore | telegrambot/utils.py:92-139 | for a name that is not a known device, the outcome does not depend on the bus, the store or the conversion; the model runs, on an empty single-sample batch, only if the download at the empty URL succeeds |
| Utils.UnknownDeviceFails | telegrambot/utils.py:92-131 | when the download at the empty URL raises, a name that is not a known device always fails with `NoModel` (`pickle.loads(False)`), and the model never runs |
| Utils.Pc2Example | telegrambot/utils.py:105-137 | `pc2` with schema `[x, y]` and a record holding 1.5 and 2.0 returns `[1.5, 2.0]`, and the model receives `[[1.5, 2.0, 0, 0]]` |
| Utils.MissingFieldIsSkipped | telegrambot/utils.py:116-125 | a Raspberry Pi record lacking one schema field gives a shorter vector, not an error |
| Utils.Predict.constructor | telegrambot/utils.py:43-55 | stores the three model URLs, and no message has been consumed yet |
| Utils.Predict.Dispatch | telegrambot/utils.py:92-127 | exactly the names `pc1`, `pc2` and `raspberry` select a route, each its own stored URL and schema |
| Utils.Predict.GetDataConsumer | telegrambot/utils.py:57-83 | changes only the stored message, and leaves it and the exit flag as the consumer fold over the trace gives them |
| Utils.Predict.PredictOutput | telegrambot/utils.py:85-141 | its outcome is the pipeline outcome for the route the device name selects; the stored message changes only for a known device, and then as the consumer loop changes it |
| RaspberryPi.ParseThrottled | generators/raspberrypi/raspberry.py:37-38 | the throttling parse fails exactly when the output holds no `=`, and its value never holds a newline |
| RaspberryPi.ParseThrottledSegment | generators/raspberrypi/raspberry.py:37-38 | the throttling value is the text after the first `=`, up to the next `=`, cut at the first newline |
| RaspberryPi.ParseThrottledExample | generators/raspberrypi/raspberry.py:36-38 | `"throttled=0x0\n"` gives `"0x0"` |
| RaspberryPi.New | generators/raspberrypi/raspberry.py:12-38 | building a snapshot succeeds exactly when the throttling output holds a `=`; every field is then the given reading unchanged, the device is `"raspberry"`, and the throttling value is the parsed one, with no newline |
| RaspberryPi.Json | generators/raspberrypi/raspberry.py:153-175 | the document's keys are exactly the 15 listed keys; each metric entry is the snapshot's field, and the identifier, device, time stamp and throttling value are stored as text |
| RaspberryPi.DocumentHasFifteenKeys | generators/raspberrypi/raspberry.py:159-175 | the document has exactly fifteen entries |
| RaspberryPi.DocumentDeviceIsRaspberry | generators/raspberrypi/raspberry.py:20 | the `device` entry of any built snapshot's document is `"raspberry"` |
| RaspberryPi.JsonDeterminesSnapshot | generators/raspberrypi/raspberry.py:159-175 | the document loses nothing: two documents are equal only for equal snapshots and time stamps |
| Strings.JoinSplit | generators/raspberrypi/raspberry.py:37 | joining the pieces of `s.split(c)` with `c` gives `s` back |
| Strings.SplitHasSecond | generators/raspberrypi/raspberry.py:37 | `s.split(c)` has a piece at index 1 exactly when `c` occurs in `s` |
| Strings.SplitPiecesAvoidSeparator | generators/raspberrypi/raspberry.py:38 | no piece of `s.split(c)` contains `c` |

## Left out

- Utils.UnknownDeviceSkipsBusAndStore: `get("")` is left free, as is every fetch. The lemma therefore also covers a `Returned` outcome, which needs a download at the empty URL to succeed. `requests.get("")` never succeeds, and `UnknownDeviceFails` states the outcome under that assumption.

- The Kafka subscription, the polling call and the closing of the consumer are bus I/O, so they are left out. A finite trace of poll results stands for them. An exception from `poll` other than the interrupt is not modelled.
- The `print` and `logging` calls are diagnostics, so they are left out. The model has no way to fail while printing a message's attributes.
- The mechanics of the DynamoDB scan are a foreign service, so they are left out. The filter and the index are given as the sequence `scan(device)`. Their loading order is stated only as the assumption of `LatestIsNewest`.
- `requests.get`, `pickle.loads` and `model.predict` are the network, deserialisation and an opaque library, so they are parameters. `predict` is taken not to raise.
- `float()` is a parameter that may fail, so floating-point arithmetic is not modelled. The padding zeros are the exact value `0.0`, where Python appends the integers `0`.
- The hardware reads are I/O and randomness, so every reading is an input. They are `vcgencmd`, `subprocess`, `uuid4` and the formatting of `datetime.today()`. The CPU temperature's division by 1000 is floating point, so the Celsius value is taken as given.
- `.decode()` of the throttling output is taken as already done. A decoding error is not modelled.
- The `config` module is not part of this model. The feature lists are the `Schemas` parameter. The constructor takes all three URLs, with no defaults from configuration.
- `Raspberry.__str__` is left out, because Python's dictionary formatting is not modelled.
- Concurrency is not modelled: each call is a single sequential run.
