/**
 * What `export_to_onnx` of training/export_onnx.py decides before it
 * calls the exporter: the state dict inside the checkpoint, the
 * architecture read off its key names, and the input and output names,
 * shapes and dynamic axes. Loading, building the torch model and the
 * export itself are outside the model.
 */
module OnnxExport {
  import opened Wrappers

  /** A value of the checkpoint dictionary: a dictionary of tensors (only its keys matter here), or anything else. */
  datatype CheckpointValue = StateDict(keys: set<string>) | OtherValue

  /** The checkpoint `torch.load` returns: a dictionary. */
  type Checkpoint = map<string, CheckpointValue>

  /**
   * The keys of the state dict: those of `checkpoint['model_state_dict']`
   * when that key exists, otherwise the checkpoint's own. A
   * `model_state_dict` that is not a dictionary has no keys to read.
   */
  function StateDictKeys(checkpoint: Checkpoint): (r: Result<set<string>, string>)
    ensures "model_state_dict" !in checkpoint ==> r == Ok(checkpoint.Keys)
    ensures "model_state_dict" in checkpoint ==>
      (r.Ok? <==> checkpoint["model_state_dict"].StateDict?)
      && (r.Ok? ==> r.value == checkpoint["model_state_dict"].keys)
  {
    if "model_state_dict" in checkpoint then
      match checkpoint["model_state_dict"]
      case StateDict(keys) => Ok(keys)
      case OtherValue => Err("state dict has no keys")
    else Ok(checkpoint.Keys)
  }

  /** `sub in k` on strings. */
  predicate Contains(k: string, sub: string)
    decreases |k|
  {
    |sub| <= |k| && (k[..|sub|] == sub || (|k| > 0 && Contains(k[1..], sub)))
  }

  /** A string holds sub exactly when sub starts at one of its positions. */
  lemma {:induction false} ContainsAt(k: string, sub: string, i: nat)
    requires i + |sub| <= |k| && k[i..i + |sub|] == sub
    ensures Contains(k, sub)
    decreases i
  {
    if i > 0 {
      assert k[1..][i - 1..i - 1 + |sub|] == k[i..i + |sub|];
      ContainsAt(k[1..], sub, i - 1);
    }
  }

  /** A string lacking one of sub's characters does not hold sub. */
  lemma {:induction false} MissingChar(k: string, sub: string, c: char)
    requires c in sub && c !in k
    ensures !Contains(k, sub)
    decreases |k|
  {
    if |sub| <= |k| {
      assert c !in k[..|sub|];
      if |k| > 0 {
        assert forall j :: 0 <= j < |k| - 1 ==> k[1..][j] == k[j + 1];
        MissingChar(k[1..], sub, c);
      }
    }
  }

  /** `any(sub in k for k in keys)`. */
  predicate AnyContains(keys: set<string>, sub: string)
  {
    exists k :: k in keys && Contains(k, sub)
  }

  datatype Architecture = Simple | Conv | PolicyValue

  /** The heuristic on layer names: both `conv` and `fc_pol` mean policy-value, `conv` alone conv, otherwise simple. */
  function Detect(keys: set<string>): Architecture
  {
    if AnyContains(keys, "conv") then
      if AnyContains(keys, "fc_pol") then PolicyValue else Conv
    else Simple
  }

  /** Each architecture is detected exactly under its condition on the key names. */
  lemma DetectCases(keys: set<string>)
    ensures Detect(keys) == PolicyValue <==> AnyContains(keys, "conv") && AnyContains(keys, "fc_pol")
    ensures Detect(keys) == Conv <==> AnyContains(keys, "conv") && !AnyContains(keys, "fc_pol")
    ensures Detect(keys) == Simple <==> !AnyContains(keys, "conv")
  {
  }

  /** A policy head without a convolution key is still detected as simple. */
  lemma PolicyHeadAloneIsSimple()
    ensures Detect({"fc_pol.weight"}) == Simple
  {
    MissingChar("fc_pol.weight", "conv", 'v');
  }

  /** A key that starts with sub holds it. */
  lemma PrefixContained(k: string, sub: string)
    requires |sub| <= |k| && k[..|sub|] == sub
    ensures Contains(k, sub)
  {
  }

  /** Convolution and policy-head keys together make a policy-value network. */
  lemma ConvAndPolicyHead(conv: string, head: string)
    requires conv == "conv1.weight" && head == "fc_pol.weight"
    ensures Detect({conv, head}) == PolicyValue
  {
    PrefixContained(conv, "conv");
    PrefixContained(head, "fc_pol");
    assert conv in {conv, head} && head in {conv, head};
  }

  /** Convolution keys with a value head alone make a conv network. */
  lemma ConvWithoutPolicyHead(conv: string, head: string)
    requires conv == "conv1.weight" && head == "fc_val.bias"
    ensures Detect({conv, head}) == Conv
  {
    PrefixContained(conv, "conv");
    MissingChar(head, "fc_pol", 'p');
    MissingChar(conv, "fc_pol", 'f');
    assert conv in {conv, head};
  }

  /** What the exporter is given: the architecture, one input with its shape, the outputs, and the batch axes. */
  datatype ExportPlan = ExportPlan(
    architecture: Architecture,
    inputName: string,
    inputShape: seq<nat>,
    outputNames: seq<string>,
    dynamicAxes: map<string, map<nat, string>>)

  /** Axis 0 of every tensor named is the batch. */
  const BATCH: map<nat, string> := map[0 := "batch_size"]

  /**
   * Architecture detection, then the dummy input, the input name and the
   * dynamic axes, built up as the dictionary is updated: a simple network
   * reads `features` of shape (1, 768), the others `board` of shape
   * (1, 12, 8, 8); a policy-value network answers `policy` and `value`,
   * the others `value` alone. The `architecture` argument is overwritten
   * by the detection.
   */
  method PlanExport(checkpoint: Checkpoint, architecture: Architecture) returns (r: Result<ExportPlan, string>)
    ensures r.Err? <==> StateDictKeys(checkpoint).Err?
    ensures r.Ok? ==> r.value.architecture == Detect(StateDictKeys(checkpoint).value)
    ensures r.Ok? ==> PlanShape(r.value)
  {
    var keys := StateDictKeys(checkpoint);
    if keys.Err? {
      return Err(keys.error);
    }
    var arch := architecture;
    if AnyContains(keys.value, "conv") {
      if AnyContains(keys.value, "fc_pol") {
        arch := PolicyValue;
      } else {
        arch := Conv;
      }
    } else {
      arch := Simple;
    }
    var inputName, inputShape, dynamicAxes;
    if arch == Simple {
      inputShape := [1, 768];
      inputName := "features";
      dynamicAxes := map["features" := BATCH, "value" := BATCH];
    } else {
      inputShape := [1, 12, 8, 8];
      inputName := "board";
      dynamicAxes := map["board" := BATCH];
    }
    var outputNames;
    if arch == PolicyValue {
      outputNames := ["policy", "value"];
      dynamicAxes := dynamicAxes["policy" := BATCH];
      dynamicAxes := dynamicAxes["value" := BATCH];
    } else {
      outputNames := ["value"];
      dynamicAxes := dynamicAxes["value" := BATCH];
    }
    r := Ok(ExportPlan(arch, inputName, inputShape, outputNames, dynamicAxes));
  }

  /**
   * The names and shapes an architecture is exported with, and the dynamic
   * axes: exactly the input and the outputs, each with axis 0 the batch.
   */
  ghost predicate PlanShape(p: ExportPlan)
  {
    && (p.architecture == Simple ==> p.inputName == "features" && p.inputShape == [1, 768])
    && (p.architecture != Simple ==> p.inputName == "board" && p.inputShape == [1, 12, 8, 8])
    && (p.architecture == PolicyValue ==> p.outputNames == ["policy", "value"])
    && (p.architecture != PolicyValue ==> p.outputNames == ["value"])
    && p.dynamicAxes.Keys == {p.inputName} + set n | n in p.outputNames
    && (forall n :: n in p.dynamicAxes ==> p.dynamicAxes[n] == BATCH)
  }
}
