/** The device side of `cmdInstall`: push the package, run `pm install`,
    then remove the pushed file. The progress poller that runs beside the
    push only reads the device and is not part of this model. */
module Install {
  import opened Common
  import opened Planning
  import opened RemoteDevice

  /** The mode the package is written with: octal 0644. */
  const FileMode: nat := 0x1A4

  function PushOp(plan: Plan): Op
  {
    Op.WriteFile(plan.dest, FileMode)
  }

  function InstallOp(plan: Plan): Op
  {
    Op.RunCommand("pm", PmArgs(plan.flags, plan.dest))
  }

  function CleanupOp(plan: Plan): Op
  {
    Op.RunCommand("rm", [plan.dest])
  }

  /** The operations one install issues and what the command reports:
      the captured output of `pm install`, or the error it ends with. */
  datatype Run = Run(ops: seq<Op>, result: Result<string>)

  /** Push, install, clean up, as the device's replies allow. A failed push
      ends the run at once (`log.Fatal`). A failed `pm install` ends it too,
      and since `log.Fatal` exits without running deferred calls the pushed
      file is not removed. The reply to the removal is never looked at. */
  function Sequence(plan: Plan, respond: Op -> Reply): (r: Run)
    ensures r.ops != [] && r.ops <= [PushOp(plan), InstallOp(plan), CleanupOp(plan)]
    ensures InstallOp(plan) in r.ops <==> !respond(PushOp(plan)).failed
    ensures CleanupOp(plan) in r.ops <==> InstallOp(plan) in r.ops && !respond(InstallOp(plan)).failed
    ensures r.result.Success? <==> CleanupOp(plan) in r.ops
    ensures r.result.Success? ==> r.result.value == respond(InstallOp(plan)).output
    ensures respond(PushOp(plan)).failed ==> r.result == Failure(WriteFailure(plan.dest))
    ensures !respond(PushOp(plan)).failed && respond(InstallOp(plan)).failed ==>
              r.result == Failure(CommandFailure("pm"))
  {
    var push, install, cleanup := PushOp(plan), InstallOp(plan), CleanupOp(plan);
    assert install != cleanup by { assert install.command[0] != cleanup.command[0]; }
    if respond(push).failed then
      Run([push], Failure(WriteFailure(plan.dest)))
    else if respond(install).failed then
      Run([push, install], Failure(CommandFailure("pm")))
    else
      Run([push, install, cleanup], Success(respond(install).output))
  }

  /** Whether the removal succeeds never changes what the install reports. */
  lemma CleanupReplyIgnored(plan: Plan, respond: Op -> Reply, respond': Op -> Reply)
    requires respond(PushOp(plan)) == respond'(PushOp(plan))
    requires respond(InstallOp(plan)) == respond'(InstallOp(plan))
    ensures Sequence(plan, respond) == Sequence(plan, respond')
  {
  }

  /** The whole of `cmdInstall`: plan from the arguments, open the source
      (`canOpen` says whether opening or fetching it succeeds), then run
      the sequence. Nothing reaches the device before the source is open. */
  function Command(args: seq<string>, canOpen: Source -> bool, respond: Op -> Reply): (r: Run)
    ensures args == [] ==> r == Run([], Failure(MissingSource))
    ensures args != [] && !canOpen(Classify(args[|args| - 1])) ==>
              r == Run([], Failure(OpenFailure(args[|args| - 1])))
    ensures args != [] && canOpen(Classify(args[|args| - 1])) ==>
              PlanInstall(args).Success? && r == Sequence(PlanInstall(args).value, respond)
  {
    match PlanInstall(args)
    case Failure(e) => Run([], Failure(e))
    case Success(plan) =>
      if !canOpen(plan.source) then Run([], Failure(OpenFailure(plan.source.location)))
      else Sequence(plan, respond)
  }

  /** The device steps of `cmdInstall` once the source is open: the
      operations issued are appended to the device's trace, and the result
      is what `Sequence` says. */
  method PushAndInstall(device: Device, plan: Plan) returns (result: Result<string>)
    modifies device
    ensures device.trace == old(device.trace) + Sequence(plan, device.respond).ops
    ensures result == Sequence(plan, device.respond).result
  {
    var pushed := device.WriteFile(plan.dest, FileMode);
    if !pushed {
      return Failure(WriteFailure(plan.dest));
    }
    var output, installed := device.RunCommand("pm", PmArgs(plan.flags, plan.dest));
    if !installed {
      return Failure(CommandFailure("pm"));
    }
    var _, _ := device.RunCommand("rm", [plan.dest]);
    result := Success(output);
  }

  /** `cmdInstall` against a device: the operations it issues are appended
      to the device's trace, and it returns what `Command` says. */
  method CmdInstall(device: Device, args: seq<string>, canOpen: Source -> bool) returns (result: Result<string>)
    modifies device
    ensures device.trace == old(device.trace) + Command(args, canOpen, device.respond).ops
    ensures result == Command(args, canOpen, device.respond).result
  {
    if args == [] {
      return Failure(MissingSource);
    }
    var filename := args[|args| - 1];
    var plan := Plan(args[..|args| - 1], Classify(filename), Destination(filename));
    assert PlanInstall(args) == Success(plan);
    if !canOpen(plan.source) {
      return Failure(OpenFailure(filename));
    }
    result := PushAndInstall(device, plan);
  }
}
