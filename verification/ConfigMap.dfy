/** CreateExpectedConfigMap. */
module ConfigMapCompiler {
  import opened Options
  import opened KeyOrder
  import opened Bundle
  import opened DeepDerivative

  /** A config whose content the operator puts into the bundle's own ConfigMap. */
  predicate Generated(c: Config) {
    c.existing == None && c.secrets == map[]
  }

  function ConfigMapData(configs: map<string, Config>): map<string, string> {
    map k | k in configs && Generated(configs[k]) :: configs[k].content
  }

  /** None when there is nothing to put into it. */
  function ExpectedConfigMap(ab: AppBundle): Option<map<string, string>> {
    var data := ConfigMapData(Entries(ab.spec.configs));
    if data == map[] then None else Some(data)
  }

  method CreateExpectedConfigMap(ab: AppBundle) returns (cm: Option<map<string, string>>)
    ensures cm == ExpectedConfigMap(ab)
  {
    if ab.spec.configs == None {
      return None;
    }
    var configs := ab.spec.configs.value;
    var data: map<string, string> := map[];
    var keys := GetSortedKeys(configs);
    assert forall i :: 0 <= i < |keys| ==> keys[i] in configs.Keys;
    for i := 0 to |keys|
      invariant forall k :: k in data <==> k in keys[..i] && Generated(configs[k])
      invariant forall k :: k in data ==> data[k] == configs[k].content
    {
      var config := configs[keys[i]];
      if config.existing != None {
        continue;
      }
      if config.secrets != map[] {
        continue;
      }
      data := data[keys[i] := config.content];
    }
    assert forall k :: k in configs.Keys ==> k in keys[..|keys|];
    assert data == ConfigMapData(configs);
    if |data| == 0 {
      return None;
    }
    return Some(data);
  }

  function EncodeConfigMap(data: map<string, string>): Value {
    StringMap(data)
  }

  const ZERO_CONFIG_MAP := Map(map[])
}
