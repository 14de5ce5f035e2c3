/**
  The print job record that the main window shares with its tabs.

  Its seven fields are the ones the main window lists when a print starts
  (src/window.cpp:213-230). The header declaring the record is not part of
  this model; a freshly allocated record is taken to hold empty strings and
  zeros.
 */
module Jobs {

  /** The value of a job record: what a deep copy preserves. */
  datatype JobFields = JobFields(
    modelFileName: string,
    slicedSvgFileName: string,
    pngFilesPath: string,
    layerCount: int,
    layerThickness: int,
    exposureTime: real,
    powerLevel: int)

  const EmptyJob := JobFields("", "", "", 0, 0, 0.0, 0)

  /** The job record as a heap object: tabs and the print manager hold references to it. */
  class PrintJob {
    var modelFileName: string
    var slicedSvgFileName: string
    var pngFilesPath: string
    var layerCount: int
    var layerThickness: int
    var exposureTime: real
    var powerLevel: int

    constructor ()
      ensures Fields() == EmptyJob
    {
      modelFileName, slicedSvgFileName, pngFilesPath := "", "", "";
      layerCount, layerThickness, exposureTime, powerLevel := 0, 0, 0.0, 0;
    }

    function Fields(): JobFields
      reads this
    {
      JobFields(modelFileName, slicedSvgFileName, pngFilesPath,
                layerCount, layerThickness, exposureTime, powerLevel)
    }

    method Copy() returns (r: PrintJob)
      ensures fresh(r) && r.Fields() == Fields()
    {
      r := new PrintJob();
      r.CopyFrom(this);
    }

    /** The member-wise copy assignment `*this = *other`. */
    method CopyFrom(other: PrintJob)
      modifies this
      ensures Fields() == old(other.Fields())
    {
      modelFileName, slicedSvgFileName, pngFilesPath :=
        other.modelFileName, other.slicedSvgFileName, other.pngFilesPath;
      layerCount, layerThickness, exposureTime, powerLevel :=
        other.layerCount, other.layerThickness, other.exposureTime, other.powerLevel;
    }
  }
}
