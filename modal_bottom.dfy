/**
  `ModalBottomViewModel`: the modal model selector's UI state. Its file repeats
  the `Model` and `Resolution` declarations of the scaffold view model; they
  are shared here, and only the three-entry model list is its own.
 */
module ModalBottom {
  import opened BottomSheetScaffold

  /** `Models.values()` of this file: MobileNet SSD and two YOLO v4 variants. */
  const ModalModels: seq<Model> := [
    Model("MobileNet SSD", "coco_ssd_mobilenet_v1_1.0_quant.tflite", "coco_ssd_mobilenet_v1_1.0_labels.txt"),
    Model("YOLO V4 416 FP32", "yolov4-tiny-custom_2000_tflite.tflite", "yolov4.txt"),
    Model("YOLO V4 416 FP16", "yolov4-tiny-custom_2000_tflite.tflite", "yolov4.txt")
  ]

  datatype ModalBottomState = ModalBottomState(
    isModalSelectorExpanded: bool,
    isModelSelectorExpanded: bool,
    models: seq<Model>,
    currentModel: Model,
    currentModelResolution: Resolution)

  /** The data class defaults: both selectors expanded, three models, the first selected, resolution 0 x 0. */
  function DefaultModalState(): (s: ModalBottomState)
    ensures s.isModalSelectorExpanded && s.isModelSelectorExpanded
    ensures |s.models| == 3 && s.currentModel == s.models[0]
    ensures s.currentModelResolution == Resolution(0, 0)
  {
    ModalBottomState(true, true, ModalModels, ModalModels[0], Resolution(0, 0))
  }

  class ModalBottomViewModel {
    var modalState: ModalBottomState

    constructor ()
      ensures modalState == DefaultModalState()
    {
      modalState := DefaultModalState();
    }

    /** Closes the model selector; the other four fields stay. */
    method OnModelSelectorDismissed()
      modifies this
      ensures !modalState.isModelSelectorExpanded
      ensures modalState.isModalSelectorExpanded == old(modalState.isModalSelectorExpanded)
      ensures modalState.models == old(modalState.models)
      ensures modalState.currentModel == old(modalState.currentModel)
      ensures modalState.currentModelResolution == old(modalState.currentModelResolution)
    {
      modalState := modalState.(isModelSelectorExpanded := false);
    }

    /** Selects a model; every other field stays. */
    method OnModelSelected(model: Model)
      modifies this
      ensures modalState == old(modalState).(currentModel := model)
    {
      modalState := modalState.(currentModel := model);
    }
  }

  /** Dismissing twice is the same as dismissing once. */
  method DismissIdempotent(vm: ModalBottomViewModel)
    modifies vm
    ensures vm.modalState == old(vm.modalState).(isModelSelectorExpanded := false)
  {
    vm.OnModelSelectorDismissed();
    ghost var once := vm.modalState;
    vm.OnModelSelectorDismissed();
    assert vm.modalState == once;
  }
}
