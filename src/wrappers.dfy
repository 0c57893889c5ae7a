/** Small value wrappers shared by the rest of the model. */
module Wrappers {

  /** A Java reference that may be null: None stands for null. */
  datatype Option<+T> = None | Some(value: T)

  /**
   * A property of a generator configuration object: either still at the
   * engine's own default (its setter was never called) or assigned a value.
   */
  datatype Setting<+T> = EngineDefault | Assigned(value: T)
}
