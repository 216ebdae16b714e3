/**
 * `CalibrateCommand`: asks a setpoint subsystem to calibrate until it reports success. The
 * subsystem's answers to `isOnline` and `calibrateHere` are parameters.
 */
module CalibrateCommands {
  class CalibrateCommand {
    var calibrationSuccessful: bool

    /** The constructor registers the subsystem requirement only; the flag is set by `initialize`. */
    constructor()
    {
    }

    /** `isReady`: the subsystem is online. */
    function IsReady(online: bool): (r: bool)
      ensures r == online
    {
      online
    }

    /** `initialize`: the command is not finished until a calibration succeeds. */
    method Initialize()
      modifies this
      ensures !IsFinished()
    {
      calibrationSuccessful := false;
    }

    /** `execute`: the command is finished exactly when this calibration attempt succeeded. */
    method Execute(calibrated: bool)
      modifies this
      ensures IsFinished() == calibrated
    {
      calibrationSuccessful := calibrated;
    }

    /** `end`: changes nothing. */
    method End(interrupted: bool)
      ensures unchanged(this)
    {
    }

    predicate IsFinished()
      reads this
    {
      calibrationSuccessful
    }
  }
}
