/**
 * The Raspberry Pi telemetry snapshot: the readings taken once when the
 * object is built, the parse of the `vcgencmd get_throttled` output, and the
 * fixed-key document the pipeline stores and later reads by key name.
 */
module RaspberryPi {
  import opened Wrappers
  import opened Strings
  import opened Telemetry

  /** The device name every Raspberry Pi snapshot carries. */
  const DeviceName: string := "raspberry"

  /**
   * One Raspberry Pi measurement. The fields are set once when it is built
   * and there is no way to change them afterwards; reading a field is the
   * corresponding read-only property.
   */
  datatype Raspberry = Raspberry(
    uuid: string,
    device: string,
    gpuTempCelsius: Value,
    cpuTempCelsius: Value,
    frequencyArmHz: Value,
    frequencyCoreHz: Value,
    frequencyPwmHz: Value,
    voltageCoreV: Value,
    voltageSdramCV: Value,
    voltageSdramIV: Value,
    voltageSdramPV: Value,
    memoryArmBytes: Value,
    memoryGpuBytes: Value,
    throttled: string)

  /**
   * The throttling status in the decoded `vcgencmd get_throttled` output
   * (`"throttled=0x0\n"`): the second `=`-separated piece, cut at its first
   * newline. Without a `=` there is no second piece and the indexing fails.
   */
  function ParseThrottled(output: string): (r: Option<string>)
    ensures r.None? <==> '=' !in output
    ensures r.Some? ==> '\n' !in r.value
  {
    var pieces := Split(output, '=');
    SplitHasSecond(output, '=');
    if |pieces| < 2 then None
    else
      SplitPiecesAvoidSeparator(pieces[1], '\n');
      Some(Split(pieces[1], '\n')[0])
  }

  /**
   * The parsed value is the text after the first `=`, up to the next `=`,
   * cut at the first newline.
   */
  lemma ParseThrottledSegment(output: string)
    requires '=' in output
    ensures ParseThrottled(output) == Some(Before(Before(After(output, '='), '='), '\n'))
  {
    SplitHasSecond(output, '=');
    SplitRest(output, '=');
    var rest := After(output, '=');
    SplitFirst(rest, '=');
    SplitFirst(Before(rest, '='), '\n');
  }

  /**
   * The usual output of a Raspberry Pi that is not throttled. The literal
   * comes in through the requires clause, and the two helpers below compute
   * the index steps: stated on the literal directly, the verifier keeps
   * unfolding `Split` and runs out of resource.
   */
  lemma ParseThrottledExample(output: string)
    requires output == "throttled=0x0\n"
    ensures ParseThrottled(output) == Some("0x0")
  {
    ParseThrottledSegment(output);
    ExampleAfterEquals(output);
    ExampleCut("0x0\n");
  }

  /** In the example output, the text after the first `=` is `"0x0\n"`. */
  lemma ExampleAfterEquals(output: string)
    requires output == "throttled=0x0\n"
    ensures After(output, '=') == "0x0\n"
  {
    assert IndexOf(output, '=') == 9 by {
      assert output[9] == '=';
      assert forall j :: 0 <= j < 9 ==> output[j] != '=';
    }
  }

  /** In the example, the piece up to the next `=` is cut at its newline to `"0x0"`. */
  lemma ExampleCut(rest: string)
    requires rest == "0x0\n"
    ensures Before(Before(rest, '='), '\n') == "0x0"
  {
    assert IndexOf(rest, '=') == 4 && IndexOf(rest, '\n') == 3 by {
      assert rest[3] == '\n';
    }
  }

  /**
   * Building a snapshot from the readings (the hardware queries, the random
   * identifier and the raw throttling output are given). It fails when the
   * throttling output cannot be parsed.
   */
  function New(
    uuid: string,
    gpuTemp: Value, cpuTemp: Value,
    armHz: Value, coreHz: Value, pwmHz: Value,
    coreV: Value, sdramCV: Value, sdramIV: Value, sdramPV: Value,
    armMem: Value, gpuMem: Value,
    throttledOutput: string): (r: Option<Raspberry>)
    ensures r.Some? <==> '=' in throttledOutput
    ensures r.Some? ==>
      && r.value.uuid == uuid
      && r.value.device == DeviceName
      && r.value.gpuTempCelsius == gpuTemp && r.value.cpuTempCelsius == cpuTemp
      && r.value.frequencyArmHz == armHz && r.value.frequencyCoreHz == coreHz
      && r.value.frequencyPwmHz == pwmHz
      && r.value.voltageCoreV == coreV && r.value.voltageSdramCV == sdramCV
      && r.value.voltageSdramIV == sdramIV && r.value.voltageSdramPV == sdramPV
      && r.value.memoryArmBytes == armMem && r.value.memoryGpuBytes == gpuMem
      && '\n' !in r.value.throttled
      && Some(r.value.throttled) == ParseThrottled(throttledOutput)
  {
    match ParseThrottled(throttledOutput)
    case None => None
    case Some(t) =>
      Some(Raspberry(uuid, DeviceName, gpuTemp, cpuTemp, armHz, coreHz, pwmHz,
                     coreV, sdramCV, sdramIV, sdramPV, armMem, gpuMem, t))
  }

  /** The keys of the snapshot document. */
  const DocumentKeys: set<string> := {
    "uuid", "device", "loading_datetime",
    "GPU_temp_celsius", "CPU_temp_celsius",
    "frequency_arm_hz", "frequency_core_hz", "frequency_pwm_hz",
    "voltage_core_v", "voltage_sdram_c_v", "voltage_sdram_i_v", "voltage_sdram_p_v",
    "memory_arm_bytes", "memory_gpu_bytes",
    "throttled"
  }

  /**
   * The snapshot document of `r`, stamped with `loadingDatetime` (the
   * current time as `YYYY-MM-DD@HH:MM:SS`, given).
   */
  function Json(r: Raspberry, loadingDatetime: string): (doc: Record)
    ensures doc.Keys == DocumentKeys
    ensures doc["uuid"] == Text(r.uuid)
    ensures doc["device"] == Text(r.device)
    ensures doc["loading_datetime"] == Text(loadingDatetime)
    ensures doc["GPU_temp_celsius"] == r.gpuTempCelsius
    ensures doc["CPU_temp_celsius"] == r.cpuTempCelsius
    ensures doc["frequency_arm_hz"] == r.frequencyArmHz
    ensures doc["frequency_core_hz"] == r.frequencyCoreHz
    ensures doc["frequency_pwm_hz"] == r.frequencyPwmHz
    ensures doc["voltage_core_v"] == r.voltageCoreV
    ensures doc["voltage_sdram_c_v"] == r.voltageSdramCV
    ensures doc["voltage_sdram_i_v"] == r.voltageSdramIV
    ensures doc["voltage_sdram_p_v"] == r.voltageSdramPV
    ensures doc["memory_arm_bytes"] == r.memoryArmBytes
    ensures doc["memory_gpu_bytes"] == r.memoryGpuBytes
    ensures doc["throttled"] == Text(r.throttled)
  {
    map[
      "uuid" := Text(r.uuid),
      "device" := Text(r.device),
      "loading_datetime" := Text(loadingDatetime),
      "GPU_temp_celsius" := r.gpuTempCelsius,
      "CPU_temp_celsius" := r.cpuTempCelsius,
      "frequency_arm_hz" := r.frequencyArmHz,
      "frequency_core_hz" := r.frequencyCoreHz,
      "frequency_pwm_hz" := r.frequencyPwmHz,
      "voltage_core_v" := r.voltageCoreV,
      "voltage_sdram_c_v" := r.voltageSdramCV,
      "voltage_sdram_i_v" := r.voltageSdramIV,
      "voltage_sdram_p_v" := r.voltageSdramPV,
      "memory_arm_bytes" := r.memoryArmBytes,
      "memory_gpu_bytes" := r.memoryGpuBytes,
      "throttled" := Text(r.throttled)
    ]
  }

  /** The document has exactly fifteen entries. */
  lemma DocumentHasFifteenKeys(r: Raspberry, loadingDatetime: string)
    ensures |Json(r, loadingDatetime)| == 15
  {
    var doc := Json(r, loadingDatetime);
    DocumentKeysCount();
    assert |doc| == |doc.Keys|;
  }

  lemma DocumentKeysCount()
    ensures |DocumentKeys| == 15
  {
  }

  /** Every snapshot built by `New` is tagged as a Raspberry Pi document. */
  lemma DocumentDeviceIsRaspberry(
    uuid: string, g: Value, c: Value, a: Value, co: Value, p: Value,
    v: Value, sc: Value, si: Value, sp: Value, am: Value, gm: Value,
    throttledOutput: string, loadingDatetime: string)
    requires '=' in throttledOutput
    ensures Json(New(uuid, g, c, a, co, p, v, sc, si, sp, am, gm, throttledOutput).value,
                 loadingDatetime)["device"] == Text("raspberry")
  {
  }

  /** The document loses nothing: it determines the snapshot and its time stamp. */
  lemma JsonDeterminesSnapshot(a: Raspberry, b: Raspberry, ta: string, tb: string)
    requires Json(a, ta) == Json(b, tb)
    ensures a == b && ta == tb
  {
  }
}
