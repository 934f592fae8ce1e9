/** Types shared by the DIO driver and the CAN interface models: the
    development-error record that Det_ReportError receives, and the standard
    levels of Std_Types.h. */
module Common {

  /** One call of Det_ReportError(ModuleId, InstanceId, ApiId, ErrorId). The
      error tracer itself is outside the model; each call becomes one entry of
      a ghost log. */
  datatype DetEvent = DetEvent(moduleId: nat, instanceId: nat, apiId: nat, errorId: nat)

  /** STD_LOW and STD_HIGH, the two physical levels of a channel. */
  const STD_LOW: bv8 := 0
  const STD_HIGH: bv8 := 1
}
