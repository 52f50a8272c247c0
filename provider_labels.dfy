/**
 * The front end's vendor table (web/src/plugin/cloud_asset/config/provider.js):
 * the vendors a user can pick and the label shown for a stored type.
 */
module ProviderLabels {
  import opened Wrappers
  import ProviderConfig

  datatype ProviderOption = ProviderOption(caption: string, value: string)

  /** PROVIDER_OPTIONS, in display order. */
  const ProviderOptions: seq<ProviderOption> := [
    ProviderOption("阿里云", "aliyun"),
    ProviderOption("腾讯云", "tencent"),
    ProviderOption("AWS", "aws"),
    ProviderOption("华为云", "huawei"),
    ProviderOption("百度云", "baidu")
  ]

  /** No option before position `i` has value `t`. */
  predicate FirstWith(options: seq<ProviderOption>, i: int, t: string)
    requires 0 <= i <= |options|
  {
    forall j :: 0 <= j < i ==> options[j].value != t
  }

  /** `Array.prototype.find` on the option values: the first option whose value is `t`. */
  function FindOption(options: seq<ProviderOption>, t: string): (r: Option<ProviderOption>)
    ensures r.Some? ==> r.value in options && r.value.value == t
    ensures r.None? <==> forall o :: o in options ==> o.value != t
    ensures r.Some? ==> exists i :: 0 <= i < |options| && options[i] == r.value && FirstWith(options, i, t)
  {
    if options == [] then None
    else if options[0].value == t then Some(options[0])
    else
      var rest := FindOption(options[1..], t);
      assert rest.Some? ==> exists i :: 0 <= i < |options| && options[i] == rest.value && FirstWith(options, i, t) by {
        if rest.Some? {
          var i :| 0 <= i < |options| - 1 && options[1..][i] == rest.value && FirstWith(options[1..], i, t);
          assert options[i + 1] == rest.value;
          assert forall j :: 0 < j < i + 1 ==> options[j].value == options[1..][j - 1].value;
        }
      }
      rest
  }

  /** getProviderLabel: the option's label, or the type itself when no option has it. */
  function GetProviderLabel(t: string): (r: string)
    ensures r == t || exists o :: o in ProviderOptions && o.value == t && o.caption == r
    ensures (forall o :: o in ProviderOptions ==> o.value != t) ==> r == t
  {
    var o := FindOption(ProviderOptions, t);
    if o.Some? then o.value.caption else t
  }

  /** The five vendors get their labels; any other type is shown as stored. */
  lemma GetProviderLabelFacts(t: string)
    ensures t == "aliyun" ==> GetProviderLabel(t) == "阿里云"
    ensures t == "tencent" ==> GetProviderLabel(t) == "腾讯云"
    ensures t == "aws" ==> GetProviderLabel(t) == "AWS"
    ensures t == "huawei" ==> GetProviderLabel(t) == "华为云"
    ensures t == "baidu" ==> GetProviderLabel(t) == "百度云"
    ensures t !in {"aliyun", "tencent", "aws", "huawei", "baidu"} ==> GetProviderLabel(t) == t
  {
    if t !in {"aliyun", "tencent", "aws", "huawei", "baidu"} {
      assert forall o :: o in ProviderOptions ==> o.value != t;
    }
  }

  /** No two options share a value or a label, so every label names one vendor. */
  lemma OptionsDistinct()
    ensures forall i, j :: 0 <= i < j < |ProviderOptions| ==>
      ProviderOptions[i].value != ProviderOptions[j].value && ProviderOptions[i].caption != ProviderOptions[j].caption
  {
  }

  /** The front end labels the three vendors the server describes exactly as the server names them. */
  lemma LabelsAgreeWithServer(t: string)
    requires t in {"aliyun", "tencent", "aws"}
    ensures GetProviderLabel(t) == ProviderConfig.GetProviderName(t)
  {
    GetProviderLabelFacts(t);
  }

  /** Both front end and server leave a type outside every list unchanged. */
  lemma UnknownTypesShownAsStored(t: string)
    requires t !in {"aliyun", "tencent", "aws", "huawei", "baidu"}
    ensures GetProviderLabel(t) == t && ProviderConfig.GetProviderName(t) == t
  {
    GetProviderLabelFacts(t);
  }
}
