/** The remote device as `cmdInstall` uses it: it writes a stream to a path
    and runs commands. The device-bridge connection is outside this model;
    the device is the log of operations issued to it, and its replies come
    from a fixed function of the operation. */
module RemoteDevice {

  /** An operation issued to the device. */
  datatype Op =
    | WriteFile(path: string, perm: nat)
    | RunCommand(command: string, args: seq<string>)

  /** What the device answers: a command's captured output, and whether
      the call reported an error. */
  datatype Reply = Reply(output: string, failed: bool)

  class Device {
    /** Every operation issued so far, oldest first. */
    var trace: seq<Op>
    /** How the device answers each operation. */
    const respond: Op -> Reply

    constructor (respond: Op -> Reply)
      ensures this.respond == respond && trace == []
    {
      this.respond := respond;
      trace := [];
    }

    /** `device.WriteToFile`: push the stream to `path` with mode `perm`. */
    method WriteFile(path: string, perm: nat) returns (ok: bool)
      modifies this
      ensures trace == old(trace) + [Op.WriteFile(path, perm)]
      ensures ok == !respond(Op.WriteFile(path, perm)).failed
    {
      trace := trace + [Op.WriteFile(path, perm)];
      ok := !respond(Op.WriteFile(path, perm)).failed;
    }

    /** `device.RunCommand`: run `command` with `args`, capturing its output. */
    method RunCommand(command: string, args: seq<string>) returns (output: string, ok: bool)
      modifies this
      ensures trace == old(trace) + [Op.RunCommand(command, args)]
      ensures output == respond(Op.RunCommand(command, args)).output
      ensures ok == !respond(Op.RunCommand(command, args)).failed
    {
      trace := trace + [Op.RunCommand(command, args)];
      var reply := respond(Op.RunCommand(command, args));
      output, ok := reply.output, !reply.failed;
    }
  }
}
