/**
  `BottomSheetScaffoldViewModel`: the scaffold's UI state, a flag toggle and
  the model selection. This file also declares `Model` and `Resolution`, which
  the other view models share.
 */
module BottomSheetScaffold {

  /** A detection model: display name, model file and label file. */
  datatype Model = Model(name: string, path: string, labelsPath: string)

  /** `Resolution(width, height)`. */
  datatype Resolution = Resolution(width: int, height: int)

  /** `Models.values()` of this file: a single MobileNet SSD entry. */
  const ScaffoldModels: seq<Model> := [
    Model("MobileNet SSD", "coco_ssd_mobilenet_v1_1.0_quant.tflite", "coco_ssd_mobilenet_v1_1.0_labels.txt")
  ]

  datatype BottomSheetScaffoldState = BottomSheetScaffoldState(
    isBottomSheetSelectorExpanded: bool,
    isBottomSheetExpanded: bool,
    models: seq<Model>,
    currentModel: Model)

  /** The data class defaults: both flags down, the model list, and its first entry selected. */
  function DefaultScaffoldState(): (s: BottomSheetScaffoldState)
    ensures !s.isBottomSheetSelectorExpanded && !s.isBottomSheetExpanded
    ensures |s.models| == 1 && s.currentModel == s.models[0]
    ensures s.currentModel.name == "MobileNet SSD"
  {
    BottomSheetScaffoldState(false, false, ScaffoldModels, ScaffoldModels[0])
  }

  class BottomSheetScaffoldViewModel {
    var scaffoldState: BottomSheetScaffoldState

    constructor ()
      ensures scaffoldState == DefaultScaffoldState()
    {
      scaffoldState := DefaultScaffoldState();
    }

    /** Negates the selector flag; every other field stays. */
    method ToggleBottomSheetSelector()
      modifies this
      ensures scaffoldState.isBottomSheetSelectorExpanded == !old(scaffoldState.isBottomSheetSelectorExpanded)
      ensures scaffoldState.isBottomSheetExpanded == old(scaffoldState.isBottomSheetExpanded)
      ensures scaffoldState.models == old(scaffoldState.models)
      ensures scaffoldState.currentModel == old(scaffoldState.currentModel)
    {
      scaffoldState := scaffoldState.(isBottomSheetSelectorExpanded := !scaffoldState.isBottomSheetSelectorExpanded);
    }

    /** Selects a model; every other field stays. */
    method UpdateModel(model: Model)
      modifies this
      ensures scaffoldState == old(scaffoldState).(currentModel := model)
    {
      scaffoldState := scaffoldState.(currentModel := model);
    }
  }

  /** Toggling twice restores the state. */
  method ToggleTwiceRestores(vm: BottomSheetScaffoldViewModel)
    modifies vm
    ensures vm.scaffoldState == old(vm.scaffoldState)
  {
    vm.ToggleBottomSheetSelector();
    vm.ToggleBottomSheetSelector();
  }

  /** Selecting the same model twice is the same as selecting it once. */
  method UpdateModelIdempotent(vm: BottomSheetScaffoldViewModel, model: Model)
    modifies vm
    ensures vm.scaffoldState == old(vm.scaffoldState).(currentModel := model)
  {
    vm.UpdateModel(model);
    ghost var once := vm.scaffoldState;
    vm.UpdateModel(model);
    assert vm.scaffoldState == once;
  }
}
