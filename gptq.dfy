/** The GPTQ quantization configuration: construction with its bit-width
    check, its printed form, parsing from the model's quantization config,
    and the constant metadata tables. */
module Gptq {

  import opened Wrappers
  import opened Decimal
  import opened JsonValues

  datatype GptqConfig = GptqConfig(weightBits: int, groupSize: int, descAct: bool, packFactor: int)

  /** `ZeroDivision`: `32 // 0`; `UnsupportedWeightBits`: the `ValueError`
      for a width other than 4; `MissingKey` and `WrongType`: the values read
      from a config file. */
  datatype ConfigError =
    | ZeroDivision
    | UnsupportedWeightBits(bits: int)
    | MissingKey(key: string)
    | WrongType(key: string)

  /** Python's `//`, which rounds toward negative infinity. */
  function FloorDiv(a: int, b: int): (q: int)
    requires b != 0
    ensures b > 0 ==> q * b <= a < q * b + b
    ensures b < 0 ==> q * b >= a > q * b + b
  {
    if b > 0 then a / b else (-a) / (-b)
  }

  /** `GPTQConfig(weight_bits, group_size, desc_act)`: the fields are stored,
      `pack_factor = 32 // weight_bits` is computed (raising for 0), and any
      width but 4 is rejected. */
  function NewGptqConfig(weightBits: int, groupSize: int, descAct: bool): (r: Result<GptqConfig, ConfigError>)
    ensures r.Ok? <==> weightBits == 4
    ensures r.Ok? ==> r.value == GptqConfig(4, groupSize, descAct, 8)
    ensures weightBits == 0 ==> r == Err(ZeroDivision)
    ensures weightBits != 0 && weightBits != 4 ==> r == Err(UnsupportedWeightBits(weightBits))
  {
    if weightBits == 0 then Err(ZeroDivision)
    else
      var packFactor := FloorDiv(32, weightBits);
      if weightBits != 4 then Err(UnsupportedWeightBits(weightBits))
      else Ok(GptqConfig(weightBits, groupSize, descAct, packFactor))
  }

  /** `__repr__`: the class name, then the three stored fields in
      parentheses (the pack factor is not printed). */
  function Repr(c: GptqConfig): (r: string)
    ensures "GPTQConfig(weight_bits=" <= r
    ensures |r| > 0 && r[|r| - 1] == ')'
  {
    "GPTQConfig(weight_bits=" + (IntToString(c.weightBits) +
    (", group_size=" + (IntToString(c.groupSize) +
    (", desc_act=" + (BoolToString(c.descAct) + ")")))))
  }

  /** Index of the first ',' in `s`, or `|s|`. */
  function FirstComma(s: string): (k: nat)
    ensures k <= |s|
    ensures forall i :: 0 <= i < k ==> s[i] != ','
    ensures k < |s| ==> s[k] == ','
  {
    if s == [] || s[0] == ',' then 0 else 1 + FirstComma(s[1..])
  }

  /** `s` without the prefix `p`, if it starts with it. */
  function DropPrefix(p: string, s: string): (r: Option<string>)
    ensures r.Some? ==> p + r.value == s
  {
    if |p| <= |s| && s[..|p|] == p then Some(s[|p|..]) else None
  }

  lemma DropPrefixOf(p: string, x: string)
    ensures DropPrefix(p, p + x) == Some(x)
  {
    assert (p + x)[..|p|] == p && (p + x)[|p|..] == x;
  }

  /** An integer field up to the next ',', and what follows it. */
  function SplitField(s: string): (Option<int>, string) {
    var k := FirstComma(s);
    (ParseInt(s[..k]), s[k..])
  }

  lemma SplitFieldOf(i: int, rest: string)
    requires |rest| > 0 && rest[0] == ','
    ensures SplitField(IntToString(i) + rest).0 == Some(i)
    ensures SplitField(IntToString(i) + rest).1 == rest
  {
    var a := IntToString(i);
    assert forall j :: 0 <= j < |a| ==> (a + rest)[j] == a[j];
    assert (a + rest)[|a|] == rest[0];
    assert FirstComma(a + rest) == |a|;
    assert (a + rest)[..|a|] == a && (a + rest)[|a|..] == rest;
    ParseIntToString(i);
  }

  /** Reads back the three fields from a `__repr__` string. */
  function ParseRepr(s: string): Option<(int, int, bool)> {
    match DropPrefix("GPTQConfig(weight_bits=", s)
    case None => None
    case Some(rest) => ParseFromBits(rest)
  }

  function ParseFromBits(s: string): Option<(int, int, bool)> {
    var bits := SplitField(s);
    if bits.0.None? then None
    else
      match DropPrefix(", group_size=", bits.1)
      case None => None
      case Some(rest) => ParseFromGroupSize(bits.0.value, rest)
  }

  function ParseFromGroupSize(weightBits: int, s: string): Option<(int, int, bool)> {
    var group := SplitField(s);
    if group.0.None? then None
    else
      match DropPrefix(", desc_act=", group.1)
      case None => None
      case Some(rest) =>
        if rest == "True)" then Some((weightBits, group.0.value, true))
        else if rest == "False)" then Some((weightBits, group.0.value, false))
        else None
  }

  lemma ParseFromGroupSizeOf(weightBits: int, c: GptqConfig)
    ensures ParseFromGroupSize(weightBits, IntToString(c.groupSize) + (", desc_act=" + (BoolToString(c.descAct) + ")")))
            == Some((weightBits, c.groupSize, c.descAct))
  {
    var tail := ", desc_act=" + (BoolToString(c.descAct) + ")");
    SplitFieldOf(c.groupSize, tail);
    DropPrefixOf(", desc_act=", BoolToString(c.descAct) + ")");
  }

  lemma ParseFromBitsOf(c: GptqConfig)
    ensures ParseFromBits(IntToString(c.weightBits) + (", group_size=" + (IntToString(c.groupSize) +
              (", desc_act=" + (BoolToString(c.descAct) + ")")))))
            == Some((c.weightBits, c.groupSize, c.descAct))
  {
    var rest := IntToString(c.groupSize) + (", desc_act=" + (BoolToString(c.descAct) + ")"));
    SplitFieldOf(c.weightBits, ", group_size=" + rest);
    DropPrefixOf(", group_size=", rest);
    ParseFromGroupSizeOf(c.weightBits, c);
  }

  /** The printed form names all three stored fields: they can be read back
      from it, so distinct settings print differently. */
  lemma ReprRoundTrip(c: GptqConfig)
    ensures ParseRepr(Repr(c)) == Some((c.weightBits, c.groupSize, c.descAct))
  {
    var rest := IntToString(c.weightBits) + (", group_size=" + (IntToString(c.groupSize) +
                (", desc_act=" + (BoolToString(c.descAct) + ")"))));
    DropPrefixOf("GPTQConfig(weight_bits=", rest);
    ParseFromBitsOf(c);
  }

  /** `from_config`: the values under "bits", "group_size" and "desc_act",
      looked up in that order, passed to the constructor in that order. */
  function FromConfig(config: map<string, Json>): (r: Result<GptqConfig, ConfigError>)
    ensures "bits" !in config ==> r == Err(MissingKey("bits"))
    ensures "bits" in config && "group_size" !in config ==> r == Err(MissingKey("group_size"))
    ensures "bits" in config && "group_size" in config && "desc_act" !in config ==> r == Err(MissingKey("desc_act"))
    ensures r.Ok? <==> "bits" in config && "group_size" in config && "desc_act" in config &&
                       config["bits"] == JNum(4) && config["group_size"].JNum? && config["desc_act"].JBool?
    ensures r.Ok? ==> r.value == GptqConfig(4, config["group_size"].n, config["desc_act"].b, 8)
    ensures "bits" in config && "group_size" in config && "desc_act" in config &&
            config["bits"].JNum? && config["group_size"].JNum? && config["desc_act"].JBool? ==>
              r == NewGptqConfig(config["bits"].n, config["group_size"].n, config["desc_act"].b)
  {
    if "bits" !in config then Err(MissingKey("bits"))
    else if "group_size" !in config then Err(MissingKey("group_size"))
    else if "desc_act" !in config then Err(MissingKey("desc_act"))
    else if !config["bits"].JNum? then Err(WrongType("bits"))
    else if !config["group_size"].JNum? then Err(WrongType("group_size"))
    else if !config["desc_act"].JBool? then Err(WrongType("desc_act"))
    else NewGptqConfig(config["bits"].n, config["group_size"].n, config["desc_act"].b)
  }

  function GetName(): (r: string)
    ensures r == "gptq"
  {
    "gptq"
  }

  /** The minimum GPU compute capability, 7.0 written as 70. */
  function GetMinCapability(): (r: int)
    ensures r == 70
  {
    70
  }

  function GetConfigFilenames(): (r: seq<string>)
    ensures r == ["quantize_config.json"]
  {
    ["quantize_config.json"]
  }

  /** The packed integer tensors, each packed along dimension 1. */
  function GetPackedTensors(): (r: map<string, int>)
    ensures r.Keys == {"qweight", "qzeros"}
    ensures forall t :: t in r ==> r[t] == 1
  {
    map["qweight" := 1, "qzeros" := 1]
  }

  /** The tensors split by columns across tensor-parallel ranks: three
      distinct names. */
  function GetColParallelTensorNames(): (r: seq<string>)
    ensures |r| == 3 && "qweight" in r && "qzeros" in r && "scales" in r
    ensures forall i, j :: 0 <= i < j < |r| ==> r[i] != r[j]
  {
    ["qweight", "qzeros", "scales"]
  }

  /** The tensors stored transposed are exactly the column-parallel ones. */
  function GetTransposedTensorNames(): (r: seq<string>)
    ensures r == GetColParallelTensorNames()
  {
    ["qweight", "qzeros", "scales"]
  }

  /** The row-parallel tensors are the column-parallel ones and the group
      index `g_idx`. */
  function GetRowParallelTensorNames(): (r: seq<string>)
    ensures r == GetColParallelTensorNames() + ["g_idx"]
  {
    ["qweight", "qzeros", "scales", "g_idx"]
  }

  /** How the tables relate: every packed tensor is column-parallel, every
      column-parallel tensor is also row-parallel, and the group index is
      only row-parallel. */
  lemma TensorTables()
    ensures forall t :: t in GetPackedTensors() ==> t in GetColParallelTensorNames()
    ensures forall t :: t in GetColParallelTensorNames() ==> t in GetRowParallelTensorNames()
    ensures "g_idx" in GetRowParallelTensorNames() && "g_idx" !in GetColParallelTensorNames()
  {
  }
}
