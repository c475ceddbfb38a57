/** The argument vector of one invocation: the executable, the subcommand and
    its parameters, edited in place by the handlers before it is forwarded to
    git. */
module CommandArgs {

  class Args {
    var executable: string
    var command: string
    var params: seq<string>
    var noForward: bool  // git must not be run after the handler
    var noop: bool       // dry run: say what would be requested

    constructor (executable: string, command: string, params: seq<string>, noop: bool)
      ensures this.executable == executable && this.command == command
      ensures this.params == params && this.noop == noop && !noForward
    {
      this.executable := executable;
      this.command := command;
      this.params := params;
      this.noop := noop;
      noForward := false;
    }

    /** The index of the first parameter equal to `param`, or -1. */
    method IndexOfParam(param: string) returns (i: int)
      ensures i == -1 <==> param !in params
      ensures i != -1 ==> 0 <= i < |params| && params[i] == param && param !in params[..i]
    {
      i := 0;
      while i < |params|
        invariant 0 <= i <= |params|
        invariant param !in params[..i]
      {
        if params[i] == param {
          return;
        }
        i := i + 1;
      }
      assert params[..i] == params;
      i := -1;
    }

    /** Removes the parameter at `i` and returns it; the others keep their order. */
    method RemoveParam(i: nat) returns (item: string)
      requires i < |params|
      modifies this
      ensures item == old(params[i])
      ensures params == old(params[..i] + params[i + 1..])
      ensures executable == old(executable) && command == old(command)
      ensures noForward == old(noForward) && noop == old(noop)
    {
      item := params[i];
      params := params[..i] + params[i + 1..];
    }

    /** Replaces the parameter at `i`; every other index keeps its parameter. */
    method ReplaceParam(i: nat, item: string)
      requires i < |params|
      modifies this
      ensures params == old(params[i := item])
      ensures executable == old(executable) && command == old(command)
      ensures noForward == old(noForward) && noop == old(noop)
    {
      params := params[i := item];
    }

    method NoForward()
      modifies this
      ensures noForward
      ensures params == old(params) && executable == old(executable)
      ensures command == old(command) && noop == old(noop)
    {
      noForward := true;
    }

    /** Replaces the whole command line. */
    method Replace(executable: string, command: string, params: seq<string>)
      modifies this
      ensures this.executable == executable && this.command == command && this.params == params
      ensures noForward == old(noForward) && noop == old(noop)
    {
      this.executable := executable;
      this.command := command;
      this.params := params;
    }
  }
}
