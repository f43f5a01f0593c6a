/**
  The persistence and life-cycle logic of the base class of all models
  (src/models/model_base.py): where a model's file, configuration and
  training parameters live, and when a model is loaded, created, trained,
  updated and saved.

  The hooks a concrete model implements (creating, training and updating
  the network) are not part of the model; a model in memory is a handle
  saying where it came from, the files that exist are a parameter, and the
  files written are recorded in a ghost log.
 */
module Models {

  import opened Wrappers
  import opened Text

  /** `get_model_framework`: `pytorch` for the `pt` framework, `tensorflow` for anything else. */
  function ModelFramework(framework: string): (name: string)
    ensures name == "pytorch" <==> framework == "pt"
    ensures name == "tensorflow" <==> framework != "pt"
  {
    if framework == "pt" then "pytorch" else "tensorflow"
  }

  /** `_get_model_path` once the directory is chosen. */
  function ModelPathIn(dir: string, name: string, saveInFolder: bool, framework: string): (path: string)
    ensures StartsWith(path, dir + "/")
  {
    if saveInFolder then dir + "/" + name + "_model"
    else dir + "/" + ModelFramework(framework) + "_" + name + "_model"
  }

  /** Different models in the same directory never share a path. */
  lemma ModelPathInjective(dir: string, a: string, b: string, saveInFolder: bool, framework: string)
    requires ModelPathIn(dir, a, saveInFolder, framework) == ModelPathIn(dir, b, saveInFolder, framework)
    ensures a == b
  {
    var head := if saveInFolder then dir + "/" else dir + "/" + ModelFramework(framework) + "_";
    var pa := ModelPathIn(dir, a, saveInFolder, framework);
    assert pa == head + a + "_model";
    assert ModelPathIn(dir, b, saveInFolder, framework) == head + b + "_model";
    assert |a| == |b|;
    assert a == pa[|head|..|head| + |a|];
  }

  /** A model saved in a folder and one saved as a file never share a path. */
  lemma FolderAndFilePathsDiffer(dir: string, name: string, framework: string)
    ensures ModelPathIn(dir, name, true, framework) != ModelPathIn(dir, name, false, framework)
  {
    assert |ModelPathIn(dir, name, true, framework)| < |ModelPathIn(dir, name, false, framework)|;
  }

  /** `{config_dir}/{model_name}/{kind}_{variant}.yaml`, or `{kind}.yaml` without a variant. */
  function YamlPath(configDir: string, modelName: string, kind: string, variant: Option<string>): (p: string)
    ensures StartsWith(p, configDir + "/" + modelName + "/" + kind)
    ensures |p| >= 5 && p[|p| - 5..] == ".yaml"
  {
    if variant.Some? then configDir + "/" + modelName + "/" + kind + "_" + variant.value + ".yaml"
    else configDir + "/" + modelName + "/" + kind + ".yaml"
  }

  /** `_get_model_config_file_path`. */
  function ConfigFilePath(configDir: string, modelName: string, configName: Option<string>): (p: string)
    ensures StartsWith(p, configDir + "/" + modelName + "/model")
  {
    YamlPath(configDir, modelName, "model", configName)
  }

  /** `_get_train_params_file_path`. */
  function TrainParamsFilePath(configDir: string, modelName: string, paramsName: Option<string>): (p: string)
    ensures StartsWith(p, configDir + "/" + modelName + "/train")
  {
    YamlPath(configDir, modelName, "train", paramsName)
  }

  /** A model's configuration file and its training parameters file are never the same file. */
  lemma ConfigAndTrainParamsDiffer(configDir: string, modelName: string, configName: Option<string>,
                                   paramsName: Option<string>)
    ensures ConfigFilePath(configDir, modelName, configName) != TrainParamsFilePath(configDir, modelName, paramsName)
  {
    var dir := configDir + "/" + modelName + "/";
    assert ConfigFilePath(configDir, modelName, configName)[|dir|] == 'm';
    assert TrainParamsFilePath(configDir, modelName, paramsName)[|dir|] == 't';
  }

  /**
    A variant's file is never the default file, and distinct variants have
    distinct files, for configurations and training parameters alike.
   */
  lemma YamlPathsDistinct(configDir: string, modelName: string, kind: string, v: Option<string>, w: Option<string>)
    requires YamlPath(configDir, modelName, kind, v) == YamlPath(configDir, modelName, kind, w)
    ensures v == w
  {
    var head := configDir + "/" + modelName + "/" + kind;
    var pv := YamlPath(configDir, modelName, kind, v);
    var pw := YamlPath(configDir, modelName, kind, w);
    if v.Some? {
      assert pv == head + ("_" + v.value + ".yaml");
      assert pv[|head|] == '_';
    }
    if w.Some? {
      assert pw == head + ("_" + w.value + ".yaml");
      assert pw[|head|] == '_';
    }
    if v.None? {
      assert pv == head + ".yaml";
      assert pv[|head|] == '.';
    }
    if w.None? {
      assert pw == head + ".yaml";
      assert pw[|head|] == '.';
    }
    if v.Some? && w.Some? {
      assert |v.value| == |w.value|;
      assert v.value == pv[|head| + 1..|head| + 1 + |v.value|];
      assert w.value == pw[|head| + 1..|head| + 1 + |w.value|];
    }
  }

  /** What the `model` attribute holds. */
  datatype ModelHandle =
    | /** Read from the given model path. */
      Loaded(path: string)
    | /** Freshly built by the concrete model. */
      Created

  class ModelBase {
    const modelName: string
    /** The storage manager's models and configuration directories. */
    const modelsDir: string
    const configDir: string
    /** The configured framework (`config.framework`). */
    const framework: string
    const isInferenceMode: bool
    /** What the concrete model's `is_persistent_model()` returns. */
    const persistent: bool
    /** What the concrete model's `get_save_model_in_folder()` returns. */
    const saveInFolder: bool

    var useTrainedModel: bool
    var model: Option<ModelHandle>
    var isTraining: bool
    var modelsDirOverride: Option<string>
    /** Every path the model was saved to, oldest first. */
    ghost var saved: seq<string>

    constructor(modelName: string, modelsDir: string, configDir: string, framework: string,
                useTrainedModel: bool, isInferenceMode: bool, persistent: bool, saveInFolder: bool)
      ensures this.modelName == modelName && this.modelsDir == modelsDir && this.configDir == configDir
      ensures this.framework == framework && this.isInferenceMode == isInferenceMode
      ensures this.persistent == persistent && this.saveInFolder == saveInFolder
      ensures this.useTrainedModel == useTrainedModel
      ensures model == None && !isTraining && modelsDirOverride == None && saved == []
    {
      this.modelName := modelName;
      this.modelsDir := modelsDir;
      this.configDir := configDir;
      this.framework := framework;
      this.isInferenceMode := isInferenceMode;
      this.persistent := persistent;
      this.saveInFolder := saveInFolder;
      this.useTrainedModel := useTrainedModel;
      model := None;
      isTraining := false;
      modelsDirOverride := None;
      saved := [];
    }

    /** The directory models are read from and written to: the override when set, else the storage manager's. */
    function ModelsDirNow(): (dir: string)
      reads this
      ensures modelsDirOverride.Some? ==> dir == modelsDirOverride.value
      ensures modelsDirOverride.None? ==> dir == modelsDir
    {
      if modelsDirOverride.Some? then modelsDirOverride.value else modelsDir
    }

    /** `get_model_path`. */
    function ModelPath(): (p: string)
      reads this
      ensures StartsWith(p, ModelsDirNow() + "/")
    {
      ModelPathIn(ModelsDirNow(), modelName, saveInFolder, framework)
    }

    /** The file whose existence decides whether a trained model can be loaded: the path, plus `.p` for a single-file model. */
    function ModelFile(): (f: string)
      reads this
      ensures StartsWith(f, ModelPath())
      ensures f == ModelPath() <==> saveInFolder
    {
      ModelPath() + (if saveInFolder then "" else ".p")
    }

    /** `set_models_dir`. */
    method SetModelsDir(dir: Option<string>)
      modifies this
      ensures modelsDirOverride == dir
      ensures model == old(model) && useTrainedModel == old(useTrainedModel)
      ensures isTraining == old(isTraining) && saved == old(saved)
    {
      modelsDirOverride := dir;
    }

    /**
      `load_or_create_model`: nothing happens when a model is in memory (and
      nothing is returned). Otherwise a requested trained model is loaded when
      its file exists; when it does not, the request is dropped; and without
      a loaded model a fresh one is created. The persistence of the model is
      not consulted: the source tests the method object, which is always true.
     */
    method LoadOrCreateModel(existing: set<string>) returns (m: Option<ModelHandle>)
      modifies this
      ensures old(model).Some? ==> m == None && model == old(model) && useTrainedModel == old(useTrainedModel)
      ensures old(model).None? ==>
                var found := old(useTrainedModel) && ModelFile() in existing;
                model == Some(if found then Loaded(ModelPath()) else Created) &&
                useTrainedModel == found &&
                m == model
      ensures model.Some?
      ensures modelsDirOverride == old(modelsDirOverride) && isTraining == old(isTraining) && saved == old(saved)
    {
      if model.Some? {
        return None;
      }
      if useTrainedModel {
        if ModelFile() in existing {
          model := Some(Loaded(ModelPath()));
        } else {
          useTrainedModel := false;
        }
      }
      if model.None? {
        model := Some(Created);
      }
      return model;
    }

    /** `get_model`: the model in memory, loaded or created first when there is none. */
    method GetModel(existing: set<string>) returns (m: ModelHandle)
      modifies this
      ensures model == Some(m)
      ensures old(model).Some? ==> m == old(model).value && useTrainedModel == old(useTrainedModel)
      ensures old(model).None? ==>
                m == (if old(useTrainedModel) && ModelFile() in existing then Loaded(ModelPath()) else Created)
      ensures modelsDirOverride == old(modelsDirOverride) && isTraining == old(isTraining) && saved == old(saved)
    {
      if model.None? {
        var _ := LoadOrCreateModel(existing);
      }
      m := model.value;
    }

    /**
      `save_model`: a persistent model is written to its model path. Saving a
      persistent model with none in memory fails in the source, so callers
      must have one.
     */
    method SaveModel()
      requires persistent ==> model.Some?
      modifies this
      ensures saved == old(saved) + (if persistent then [ModelPath()] else [])
      ensures model == old(model) && useTrainedModel == old(useTrainedModel)
      ensures modelsDirOverride == old(modelsDirOverride) && isTraining == old(isTraining)
    {
      if persistent {
        saved := saved + [ModelPath()];
      }
    }

    /**
      `load_from_checkpoint`: the model is read from the checkpoint directory,
      the override is cleared again, and the model is saved under the regular
      models directory.
     */
    method LoadFromCheckpoint(checkpointDir: string)
      modifies this
      ensures model == Some(Loaded(ModelPathIn(checkpointDir, modelName, saveInFolder, framework)))
      ensures modelsDirOverride == None
      ensures saved == old(saved) + (if persistent then [ModelPathIn(modelsDir, modelName, saveInFolder, framework)] else [])
      ensures useTrainedModel == old(useTrainedModel) && isTraining == old(isTraining)
    {
      modelsDirOverride := Some(checkpointDir);
      model := Some(Loaded(ModelPath()));
      modelsDirOverride := None;
      SaveModel();
    }

    /**
      `train_model`: a model meant to be used as already trained is not
      trained; otherwise it is loaded or created, trained and saved.
     */
    method TrainModel(existing: set<string>)
      modifies this
      ensures old(useTrainedModel) ==>
                model == old(model) && isTraining == old(isTraining) && saved == old(saved) &&
                useTrainedModel == old(useTrainedModel)
      ensures !old(useTrainedModel) ==>
                model == (if old(model).Some? then old(model) else Some(Created)) && !useTrainedModel &&
                isTraining && saved == old(saved) + (if persistent then [ModelPath()] else [])
      ensures modelsDirOverride == old(modelsDirOverride)
    {
      if useTrainedModel {
        return;
      }
      var _ := LoadOrCreateModel(existing);
      isTraining := true;
      SaveModel();
    }

    /**
      `update_model`: a persistent model that is not a trained one is not
      updated; otherwise it is loaded or created, updated and saved.
     */
    method UpdateModel(existing: set<string>)
      modifies this
      ensures persistent && !old(useTrainedModel) ==>
                model == old(model) && isTraining == old(isTraining) && saved == old(saved) &&
                useTrainedModel == old(useTrainedModel)
      ensures !(persistent && !old(useTrainedModel)) ==>
                isTraining && saved == old(saved) + (if persistent then [ModelPath()] else [])
      ensures !(persistent && !old(useTrainedModel)) && old(model).Some? ==>
                model == old(model) && useTrainedModel == old(useTrainedModel)
      ensures !(persistent && !old(useTrainedModel)) && old(model).None? ==>
                var found := old(useTrainedModel) && ModelFile() in existing;
                model == Some(if found then Loaded(ModelPath()) else Created) && useTrainedModel == found
      ensures modelsDirOverride == old(modelsDirOverride)
    {
      if persistent && !useTrainedModel {
        return;
      }
      var _ := LoadOrCreateModel(existing);
      isTraining := true;
      SaveModel();
    }
  }
}
