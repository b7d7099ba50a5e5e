/** The configuration handling of main.py. */
module Launch {
  import opened PyText
  import opened Json

  /** `f"{dataset}_{model}".replace("/", "_").replace("\\", "_")`. */
  function RunId(dataset: string, model: string): (id: string)
    ensures |id| == |dataset| + 1 + |model|
    ensures id[|dataset|] == '_'
    ensures '/' !in id && '\\' !in id
    ensures forall k :: 0 <= k < |id| && (dataset + "_" + model)[k] !in {'/', '\\'} ==>
              id[k] == (dataset + "_" + model)[k]
    ensures forall k :: 0 <= k < |id| && (dataset + "_" + model)[k] in {'/', '\\'} ==> id[k] == '_'
  {
    var joined := dataset + "_" + model;
    var once := ReplaceAll(joined, "/", "_");
    var twice := ReplaceAll(once, "\\", "_");
    ReplaceCharPointwise(joined, '/', '_');
    ReplaceCharPointwise(once, '\\', '_');
    assert joined[|dataset|] == '_';
    assert forall k :: 0 <= k < |twice| ==> twice[k] != '/' && twice[k] != '\\';
    twice
  }

  /** `config["api_key"] = args.api_key`: the command-line key replaces the
      configured one and every other entry stays. */
  function WithApiKey(config: map<string, Json>, key: string): (r: map<string, Json>)
    ensures "api_key" in r && r["api_key"] == JStr(key)
    ensures forall k :: k != "api_key" ==> (k in r <==> k in config)
    ensures forall k :: k != "api_key" && k in config ==> r[k] == config[k]
  {
    config["api_key" := JStr(key)]
  }
}
