/** Plate records that flow through the pipeline (include/lpr/detect/PlateResult.h, include/lpr/detect/PlateItem.h). */
module Plates {

  datatype Option<+T> = None | Some(value: T)

  /** One recognized plate. `side` is the square root of the plate box's area; `passId` 0 stands for no id.
      Images are left out. */
  datatype PlateResult = PlateResult(
    text: string,
    confidence: real,
    side: real,
    yCenter: real,
    timestamp: int,
    gate: string,
    trackId: int,
    direction: int,
    passId: nat)

  const NO_PLATE := PlateResult("", 0.0, 0.0, 0.0, 0, "", -1, 0, 0)

  /** One plate on its way to the sender. */
  datatype PlateItem = PlateItem(plate: PlateResult, gate: string, timestamp: int, forceSend: bool)
  {
    function WithDirection(direction: int): PlateItem {
      this.(plate := plate.(direction := direction))
    }

    function Corrected(direction: int): PlateItem {
      this.(plate := plate.(direction := direction), forceSend := true)
    }
  }

  const NO_ITEM := PlateItem(NO_PLATE, "", 0, false)
}
