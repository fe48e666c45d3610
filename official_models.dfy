/** The model table and naming rules of `whisper_bridge_mlx_official.py`:
    the UI-name to Hugging Face repository mapping and the cache-folder
    name of a repository. */
module OfficialModels {
  import opened Common
  import opened Text

  /** `MODEL_MAPPING`, in insertion order. */
  const ModelMapping: seq<(string, string)> := [
    ("tiny", CommunityPrefix + "whisper-tiny"),
    ("base", CommunityPrefix + "whisper-base"),
    ("small", CommunityPrefix + "whisper-small"),
    ("medium", CommunityPrefix + "whisper-medium"),
    ("large", CommunityPrefix + "whisper-large-v3"),
    ("large-v3", CommunityPrefix + "whisper-large-v3"),
    ("turbo", CommunityPrefix + "whisper-large-v3-turbo"),
    ("large-v3-turbo", CommunityPrefix + "whisper-large-v3-turbo"),
    ("turbo-q4", CommunityPrefix + "whisper-large-v3-turbo-q4"),
    ("base-8bit", CommunityPrefix + "whisper-base-mlx-8bit"),
    ("medium-8bit", CommunityPrefix + "whisper-medium-mlx-8bit"),
    ("large-8bit", CommunityPrefix + "whisper-large-v3-mlx-8bit")
  ]

  const DefaultRepo := CommunityPrefix + "whisper-base"
  const CommunityPrefix := "mlx-community/"

  /** `MODEL_MAPPING.get(model_name, "mlx-community/whisper-base")`, the
      lookup every operation of the script starts with. */
  function RepoFor(modelName: string): (repo: string)
    ensures forall i :: 0 <= i < |ModelMapping| && ModelMapping[i].0 == modelName
                        ==> repo == ModelMapping[i].1
    ensures !HasKey(ModelMapping, modelName) ==> repo == DefaultRepo
  {
    MappingIsDict();
    if HasKey(ModelMapping, modelName) then
      var i :| 0 <= i < |ModelMapping| && ModelMapping[i].0 == modelName;
      GetDistinct(ModelMapping, modelName, DefaultRepo, i);
      Get(ModelMapping, modelName, DefaultRepo)
    else
      Get(ModelMapping, modelName, DefaultRepo)
  }

  /** The table is a genuine dict: no UI name is listed twice. */
  lemma MappingIsDict()
    ensures DistinctKeys(ModelMapping)
  { }

  /** Every repository the script can use, known name or not, is an
      `mlx-community/` repository whose own name has no further `/`. */
  lemma RepoIsCommunity(modelName: string)
    ensures StartsWith(RepoFor(modelName), CommunityPrefix)
    ensures '/' !in RepoFor(modelName)[|CommunityPrefix|..]
  {
    if HasKey(ModelMapping, modelName) {
      var i :| 0 <= i < |ModelMapping| && ModelMapping[i].0 == modelName;
      assert RepoFor(modelName) == ModelMapping[i].1;
      EntryIsCommunity(i);
    }
  }

  /** Each entry of the table is a community repository. */
  lemma EntryIsCommunity(i: nat)
    requires i < |ModelMapping|
    ensures StartsWith(ModelMapping[i].1, CommunityPrefix)
    ensures '/' !in ModelMapping[i].1[|CommunityPrefix|..]
  {
    if i == 0 { PrefixedRepo("whisper-tiny"); } else
    if i == 1 { PrefixedRepo("whisper-base"); } else
    if i == 2 { PrefixedRepo("whisper-small"); } else
    if i == 3 { PrefixedRepo("whisper-medium"); } else
    if i == 4 { PrefixedRepo("whisper-large-v3"); } else
    if i == 5 { PrefixedRepo("whisper-large-v3"); } else
    if i == 6 { PrefixedRepo("whisper-large-v3-turbo"); } else
    if i == 7 { PrefixedRepo("whisper-large-v3-turbo"); } else
    if i == 8 { PrefixedRepo("whisper-large-v3-turbo-q4"); } else
    if i == 9 { PrefixedRepo("whisper-base-mlx-8bit"); } else
    if i == 10 { PrefixedRepo("whisper-medium-mlx-8bit"); } else
    if i == 11 { PrefixedRepo("whisper-large-v3-mlx-8bit"); }
  }

  /** The prefix followed by a name without `/`. */
  lemma PrefixedRepo(name: string)
    requires '/' !in name
    ensures StartsWith(CommunityPrefix + name, CommunityPrefix)
    ensures (CommunityPrefix + name)[|CommunityPrefix|..] == name
  { }

  /** Two pairs of aliases share a repository, hence a cache folder. */
  lemma AliasesShareRepo()
    ensures RepoFor("large") == RepoFor("large-v3")
    ensures RepoFor("turbo") == RepoFor("large-v3-turbo")
  {
    assert ModelMapping[4].0 == "large" && ModelMapping[5].0 == "large-v3";
    assert ModelMapping[6].0 == "turbo" && ModelMapping[7].0 == "large-v3-turbo";
  }

  /** `f"models--{hf_repo.replace('/', '--')}"`: the folder under the
      Hugging Face hub cache that holds a repository. */
  function RepoFolder(repo: string): (folder: string)
    ensures StartsWith(folder, "models--")
    ensures '/' !in folder
  {
    "models--" + ReplaceChar(repo, '/', "--")
  }

  /** Around a single `/`, replacing turns `org/name` into `org--name`. */
  lemma {:induction false} ReplaceSingleSlash(org: string, name: string)
    requires '/' !in org && '/' !in name
    ensures ReplaceChar(org + "/" + name, '/', "--") == org + "--" + name
  {
    assert org + "/" + name == org + ("/" + name);
    ReplaceCharConcat(org, "/" + name, '/', "--");
    ReplaceCharConcat("/", name, '/', "--");
    assert ReplaceChar("/", '/', "--") == "--" + ReplaceChar([], '/', "--");
    ReplaceCharAbsent(org, '/', "--");
    ReplaceCharAbsent(name, '/', "--");
  }

  /** The folder of a community repository is the prefix, `--`, and the
      repository's own name unchanged. */
  lemma {:induction false} CommunityFolder(name: string)
    requires '/' !in name
    ensures RepoFolder(CommunityPrefix + name) == "models--mlx-community--" + name
  {
    var org := "mlx-community";
    assert CommunityPrefix + name == org + "/" + name;
    ReplaceSingleSlash(org, name);
    assert "models--" + (org + "--" + name) == "models--mlx-community--" + name;
  }

  /** Distinct models resolve to distinct cache folders exactly when they
      resolve to distinct repositories, so deleting or checking one model
      touches another only through a shared repository. */
  lemma {:induction false} FolderDeterminesRepo(a: string, b: string)
    ensures RepoFolder(RepoFor(a)) == RepoFolder(RepoFor(b)) <==> RepoFor(a) == RepoFor(b)
  {
    RepoIsCommunity(a);
    RepoIsCommunity(b);
    var ra, rb := RepoFor(a), RepoFor(b);
    var na, nb := ra[|CommunityPrefix|..], rb[|CommunityPrefix|..];
    assert ra == CommunityPrefix + na;
    assert rb == CommunityPrefix + nb;
    CommunityFolder(na);
    CommunityFolder(nb);
    if RepoFolder(ra) == RepoFolder(rb) {
      var p := "models--mlx-community--";
      assert na == (p + na)[|p|..];
      assert nb == (p + nb)[|p|..];
    }
  }

  /** The naming rule itself is not injective: a repository whose name
      contains `--` shares its folder with one that has a `/` there. */
  lemma FolderRuleCollides()
    ensures RepoFolder("a/b") == RepoFolder("a--b")
  {
    ReplaceCharConcat("a", "/b", '/', "--");
    ReplaceCharConcat("/", "b", '/', "--");
    assert "a" + "/b" == "a/b";
    assert "/" + "b" == "/b";
    ReplaceCharAbsent("a--b", '/', "--");
  }
}
