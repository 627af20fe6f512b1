# Machine-learning metadata records

A Dafny model of the metadata record builders of the nachet datastore
(`datastore/db/metadata/machine_learning/__init__.py`). These functions
prepare the metadata of a machine-learning pipeline or model for the
database, and rebuild it when it is read back.

- **Import builders** (`build_pipeline_import`, `build_model_import`) check a
  user-supplied dictionary against a fixed, ordered list of required fields.
  They raise `MissingKeyError` for the first absent field, in list order.
  Otherwise they keep exactly the required fields and drop all others.
- **Export builders** (`build_pipeline_export`, `build_model_export`) start from a
  small record of fields taken from their arguments. They then copy every entry
  of the stored `data` dictionary on top of it, so stored values win on a clash.

Everything is in `machine_learning.dfy`, module `MachineLearning`.

Modelling choices:

- A dictionary is a `Record = map<string, Value>`.
- `Value` is a JSON-like datatype whose numbers keep their literal text, so
  floating-point fields such as `Accuracy` stay opaque.
- An import builder returns `Result<Record>`: either the record taken before
  serialisation, or `Err(MissingKeyError(key))` naming the absent field.
- The required-field scan is the recursive function `FirstAbsent`. It returns
  the index of the first absent key, or the list length when none is absent.
- The export loop `for key in data: db[key] = data[key]` is the method
  `UpdateFrom`. It visits the keys of `data` in an arbitrary order. Its result
  is proved equal to the right-biased union `Overlay(db, data)` (`db + data`)
  whatever the order. Both export builders use it.
- Dafny maps are values, so the caller's `data` cannot be changed by an export.

## Model

| member | source | states |
|---|---|---|
| `MachineLearning.FirstAbsent` | datastore/db/metadata/machine_learning/__init__.py:22-24 | The scan's result is at most the list length. Every key before it is present in the input, and the key at it (if any) is absent. |
| `MachineLearning.FirstAbsentReports` | datastore/db/metadata/machine_learning/__init__.py:22-24 | The scan stops before the end exactly when some listed key is absent. When it stops, the key it stops at is the first absent key in list order. |
| `MachineLearning.FirstAbsentUnique` | datastore/db/metadata/machine_learning/__init__.py:22-24 | The first absent key is unique, so the reported key is determined by the input. |
| `MachineLearning.FirstAbsentOnlyListed` | datastore/db/metadata/machine_learning/__init__.py:73-75 | The scan depends only on which listed keys are present. Unlisted keys never affect it. |
| `MachineLearning.BuildPipelineImport` | datastore/db/metadata/machine_learning/__init__.py:19-38 | Fails exactly when one of the 8 pipeline keys is absent, naming the first absent one. On success, the record's key set is exactly the 8 keys, and each value is the input's value for that key. |
| `MachineLearning.BuildModelImport` | datastore/db/metadata/machine_learning/__init__.py:70-92 | Fails exactly when one of the 11 model keys (`endpoint`, `api_key`, `deployment_platform`, …) is absent, naming the first absent one. On success, the record's key set is exactly the 11 keys, and each value is the input's value for that key. |
| `MachineLearning.PipelineImportIdempotent` | datastore/db/metadata/machine_learning/__init__.py:26-35 | Importing a successfully imported pipeline record again succeeds and returns the same record. |
| `MachineLearning.ModelImportIdempotent` | datastore/db/metadata/machine_learning/__init__.py:77-89 | Importing a successfully imported model record again succeeds and returns the same record. |
| `MachineLearning.PipelineImportOnlyListed` | datastore/db/metadata/machine_learning/__init__.py:20-35 | Two inputs that agree on the 8 pipeline keys give the same outcome, error or record. |
| `MachineLearning.ModelImportOnlyListed` | datastore/db/metadata/machine_learning/__init__.py:71-89 | Two inputs that agree on the 11 model keys give the same outcome, error or record. |
| `MachineLearning.Overlay` | datastore/db/metadata/machine_learning/__init__.py:56-57 | The reference right-biased union. Its key set is that of the base plus that of `data`. Keys of `data` take `data`'s value, and the other base keys keep the base value. |
| `MachineLearning.UpdateFrom` | datastore/db/metadata/machine_learning/__init__.py:56-57 | The loop that writes each entry of `data` into the record leaves exactly `Overlay(db, data)`, whatever order the keys are visited in. The same loop appears at lines 111-112. |
| `MachineLearning.BuildPipelineExport` | datastore/db/metadata/machine_learning/__init__.py:40-58 | Never fails. The key set is {models, pipeline_id, pipeline_name, default} plus the keys of `data`. Every key of `data` takes `data`'s value, so a stored `models` beats `model_ids`. Base keys absent from `data` keep the argument values. |
| `MachineLearning.BuildModelExport` | datastore/db/metadata/machine_learning/__init__.py:94-113 | Never fails. The key set is {model_id, model_name, endpoint_name, task, version} plus the keys of `data`. Every key of `data`, `version` included, takes `data`'s value. Base keys absent from `data` equal the corresponding argument, with `model_id` the identifier. |
| `MachineLearning.PipelineExportOfImport` | datastore/db/metadata/machine_learning/__init__.py:50-57 | Exporting a record with the pipeline import's key set returns every stored field unchanged: the stored `models` wins, and `pipeline_id` comes from the argument. |
| `MachineLearning.ModelExportOfImport` | datastore/db/metadata/machine_learning/__init__.py:104-112 | Exporting a record with the model import's key set returns every stored field unchanged: the stored `version` wins, and `model_id` comes from the argument. |

## Left out

- `json.dumps` in the import builders (lines 36 and 90) is a foreign serialiser. The model returns the dictionary before serialisation.
- `str(id)` (lines 52 and 105) is not modelled: the identifier is taken as already a string.
- The exception message text (`"Missing key: …"`, lines 38 and 92) is not modelled. The error carries only the missing key's name.
- Python dictionary insertion order is not modelled. A `Record` is an unordered map. The export loop is proved correct for any visiting order.
- `datastore/db/queries/inference/__init__.py` is not modelled. Each of its functions only runs SQL through a database cursor and re-raises errors, and the database's behaviour is not visible.
- The directory-validation and upload pipeline (folder shape checks, normalisation, enrichment, object-store upload) is described in the design documents but its source is not part of this model. The model follows the code of the metadata builders only.
