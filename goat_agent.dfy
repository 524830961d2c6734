/**
 * The wallet agent's adaptation layer: the startup guard over required
 * environment variables, the adaptation of wallet tools into capabilities,
 * and the pass that binds the wallet's own address into the `transfer` and
 * `get_balance` tools. Tool discovery, the wallet and the balance query are
 * parameters; `JSON.stringify(response, null, 2)` is the parameter
 * `stringify`.
 */
module GoatAgent {
  import opened Wrappers
  import opened Js

  /** A tool's declared parameters (the keys of its object schema); adaptation carries it over untouched. */
  datatype Schema = Schema(keys: seq<string>)

  /** The argument object a tool is executed with. */
  type Args = map<string, Value>

  datatype Tool = Tool(name: string, description: string, parameters: Schema, execute: Args -> Outcome<Value>)

  datatype Capability = Capability(name: string, description: string, schema: Schema, run: Args -> Outcome<string>)

  /** The fields of `wallet.balanceOf(address)` that are read. */
  datatype Balance = Balance(value: string, symbol: string)

  /** The process environment: variable name to value. */
  type Environment = map<string, string>

  const REQUIRED_VARIABLES: seq<string> :=
    ["WALLET_PRIVATE_KEY", "RPC_PROVIDER_URL", "OPENAI_API_KEY", "OPENSERV_API_KEY"]

  const TRANSFER_TOOL := "transfer"
  const BALANCE_TOOL := "get_balance"
  const TRANSACTION_PREFIX := "Transaction sent: "

  /** The TypeError message of `response.toString()` when the tool resolved to `undefined`. */
  const UNDEFINED_TO_STRING_ERROR := "Cannot read properties of undefined (reading 'toString')"

  // ---------------------------------------------------------------------
  // Startup guard

  /** `process.env[name]` is truthy: present and non-empty. */
  predicate IsSet(env: Environment, name: string) {
    name in env && env[name] != ""
  }

  function NotSet(name: string): Outcome<()> {
    Threw(Some(name + " is not set"))
  }

  /** The four guards that run before anything else, in their order; the first unset variable aborts startup. */
  function CheckEnvironment(env: Environment): (r: Outcome<()>)
    ensures r.Returned? <==> forall i :: 0 <= i < |REQUIRED_VARIABLES| ==> IsSet(env, REQUIRED_VARIABLES[i])
    ensures r.Threw? ==>
      (exists i :: 0 <= i < |REQUIRED_VARIABLES| && !IsSet(env, REQUIRED_VARIABLES[i]) && r == NotSet(REQUIRED_VARIABLES[i]))
  {
    RequiredVariablesListed();
    if !IsSet(env, "WALLET_PRIVATE_KEY") then NotSet("WALLET_PRIVATE_KEY")
    else if !IsSet(env, "RPC_PROVIDER_URL") then NotSet("RPC_PROVIDER_URL")
    else if !IsSet(env, "OPENAI_API_KEY") then NotSet("OPENAI_API_KEY")
    else if !IsSet(env, "OPENSERV_API_KEY") then NotSet("OPENSERV_API_KEY")
    else Returned(())
  }

  lemma RequiredVariablesListed()
    ensures |REQUIRED_VARIABLES| == 4
    ensures REQUIRED_VARIABLES[0] == "WALLET_PRIVATE_KEY" && REQUIRED_VARIABLES[1] == "RPC_PROVIDER_URL"
    ensures REQUIRED_VARIABLES[2] == "OPENAI_API_KEY" && REQUIRED_VARIABLES[3] == "OPENSERV_API_KEY"
  {
  }

  /** The position of the first name in `names` that is not set. */
  function FirstUnset(names: seq<string>, env: Environment): (r: Option<nat>)
    ensures r.None? <==> forall i :: 0 <= i < |names| ==> IsSet(env, names[i])
    ensures r.Some? ==> r.value < |names| && !IsSet(env, names[r.value])
    ensures r.Some? ==> forall j :: 0 <= j < r.value ==> IsSet(env, names[j])
  {
    if |names| == 0 then None
    else if !IsSet(env, names[0]) then Some(0)
    else match FirstUnset(names[1..], env)
      case None => None
      case Some(k) => Some(k + 1)
  }

  /**
   * Startup fails exactly when a required variable is unset, and then names
   * the first unset one in the order of REQUIRED_VARIABLES.
   */
  lemma CheckEnvironmentReportsFirstUnset(env: Environment)
    ensures CheckEnvironment(env) ==
      match FirstUnset(REQUIRED_VARIABLES, env)
      case None => Returned(())
      case Some(k) => NotSet(REQUIRED_VARIABLES[k])
    ensures CheckEnvironment(env).Threw? <==> exists i :: 0 <= i < |REQUIRED_VARIABLES| && !IsSet(env, REQUIRED_VARIABLES[i])
  {
    var names := REQUIRED_VARIABLES;
    assert names[0] == "WALLET_PRIVATE_KEY" && names[1] == "RPC_PROVIDER_URL";
    assert names[2] == "OPENAI_API_KEY" && names[3] == "OPENSERV_API_KEY";
    var r := FirstUnset(names, env);
    if r.Some? {
      var k := r.value;
      assert k == 0 || k == 1 || k == 2 || k == 3;
    }
  }

  // ---------------------------------------------------------------------
  // Tool adaptation

  /**
   * The text an adapted capability returns for how its tool settled: objects
   * (and `null`) are serialised, other values converted with `toString`, and
   * a failure propagates unchanged.
   */
  function ResponseText(response: Outcome<Value>, stringify: Value -> string): (r: Outcome<string>)
    ensures response.Threw? ==> r == Threw(response.message)
    ensures response.Returned? && TypeOf(response.value) == "object" ==> r == Returned(stringify(response.value))
    ensures response.Returned? && response.value.Str? ==> r == Returned(response.value.s)
    ensures response.Returned? && (response.value.Num? || response.value.Bool?) ==> r == Returned(Render(response.value))
    ensures response == Returned(Undefined) ==> r == Threw(Some(UNDEFINED_TO_STRING_ERROR))
  {
    match response
    case Threw(message) => Threw(message)
    case Returned(v) =>
      if TypeOf(v) == "object" then Returned(stringify(v))
      else if v == Undefined then Threw(Some(UNDEFINED_TO_STRING_ERROR))
      else Returned(Render(v))
  }

  /** `toCapability`: same name, description and schema; running it executes the tool and renders the result as text. */
  function ToCapability(tool: Tool, stringify: Value -> string): (c: Capability)
    ensures c.name == tool.name && c.description == tool.description && c.schema == tool.parameters
    ensures forall args :: c.run(args) == ResponseText(tool.execute(args), stringify)
  {
    Capability(tool.name, tool.description, tool.parameters, (args: Args) => ResponseText(tool.execute(args), stringify))
  }

  /** `tools.map(toCapability)`: one capability per tool, in the same order. */
  function ToCapabilities(tools: seq<Tool>, stringify: Value -> string): (caps: seq<Capability>)
    ensures |caps| == |tools|
    ensures forall i :: 0 <= i < |tools| ==> caps[i] == ToCapability(tools[i], stringify)
  {
    seq(|tools|, i requires 0 <= i < |tools| => ToCapability(tools[i], stringify))
  }

  predicate DistinctNames(tools: seq<Tool>) {
    forall i, j :: 0 <= i < j < |tools| ==> tools[i].name != tools[j].name
  }

  /** Adaptation keeps the batch's names, so tools with distinct names give capabilities with distinct names. */
  lemma ToCapabilitiesKeepsNames(tools: seq<Tool>, stringify: Value -> string)
    requires DistinctNames(tools)
    ensures forall i, j :: 0 <= i < j < |tools| ==>
      ToCapabilities(tools, stringify)[i].name != ToCapabilities(tools, stringify)[j].name
  {
  }

  // ---------------------------------------------------------------------
  // Binding the wallet's own address

  /** `{ ...args, to: address }`: the destination forced to the wallet address, every other argument kept. */
  function BindDestination(args: Args, address: string): (r: Args)
    ensures r.Keys == args.Keys + {"to"}
    ensures r["to"] == Str(address)
    ensures forall k :: k in args && k != "to" ==> r[k] == args[k]
  {
    args["to" := Str(address)]
  }

  /** `` `Transaction sent: ${result}` ``, applied when the underlying transfer resolves. */
  function ConfirmTransaction(result: Outcome<Value>): (r: Outcome<Value>)
    ensures result.Threw? ==> r == result
    ensures result.Returned? ==> r == Returned(Str(TRANSACTION_PREFIX + Render(result.value)))
  {
    match result
    case Threw(_) => result
    case Returned(v) => Returned(Str(TRANSACTION_PREFIX + Render(v)))
  }

  /**
   * The replacement `execute` of the `transfer` tool: it calls the tool's
   * original `execute`, captured when the override is installed, with the
   * destination bound to `address`, and wraps what it returns.
   */
  function TransferOverride(original: Args -> Outcome<Value>, address: string): (exec: Args -> Outcome<Value>)
    ensures forall args :: exec(args) == ConfirmTransaction(original(BindDestination(args, address)))
  {
    (args: Args) => ConfirmTransaction(original(BindDestination(args, address)))
  }

  /** `` `${balance.value} ${balance.symbol}` `` once the balance query resolves. */
  function BalanceText(balance: Outcome<Balance>): (r: Outcome<Value>)
    ensures balance.Threw? ==> r == Threw(balance.message)
    ensures balance.Returned? ==> r == Returned(Str(balance.value.value + " " + balance.value.symbol))
  {
    match balance
    case Threw(message) => Threw(message)
    case Returned(b) => Returned(Str(b.value + " " + b.symbol))
  }

  /** The replacement `execute` of the `get_balance` tool: whatever the arguments, the wallet's own balance. */
  function BalanceOverride(balanceOf: string -> Outcome<Balance>, address: string): (exec: Args -> Outcome<Value>)
    ensures forall args :: exec(args) == BalanceText(balanceOf(address))
  {
    (args: Args) => BalanceText(balanceOf(address))
  }

  /** The get_balance override gives the same answer for any two argument objects. */
  lemma BalanceOverrideIgnoresArguments(balanceOf: string -> Outcome<Balance>, address: string, a: Args, b: Args)
    ensures BalanceOverride(balanceOf, address)(a) == BalanceOverride(balanceOf, address)(b)
  {
  }

  /** With a balance of 5 USDC the get_balance override answers "5 USDC". */
  lemma BalanceOverrideExample(balanceOf: string -> Outcome<Balance>, address: string, args: Args)
    requires balanceOf(address) == Returned(Balance("5", "USDC"))
    ensures BalanceOverride(balanceOf, address)(args) == Returned(Str("5 USDC"))
  {
    assert "5" + " " + "USDC" == "5 USDC";
  }

  /** `tools.find(tool => tool.name === name)`, as a position. */
  function FirstIndex(tools: seq<Tool>, name: string): (r: Option<nat>)
    ensures r.Some? ==> r.value < |tools| && tools[r.value].name == name
    ensures r.Some? ==> forall j :: 0 <= j < r.value ==> tools[j].name != name
    ensures r.None? <==> forall j :: 0 <= j < |tools| ==> tools[j].name != name
  {
    if |tools| == 0 then None
    else if tools[0].name == name then Some(0)
    else match FirstIndex(tools[1..], name)
      case None => None
      case Some(k) => Some(k + 1)
  }

  /** Tools with the same name at every position */
  predicate SameNames(a: seq<Tool>, b: seq<Tool>) {
    |a| == |b| && forall i :: 0 <= i < |a| ==> a[i].name == b[i].name
  }

  lemma FirstIndexSameNames(a: seq<Tool>, b: seq<Tool>, name: string)
    requires SameNames(a, b)
    ensures FirstIndex(a, name) == FirstIndex(b, name)
  {
  }

  function WithExecute(tools: seq<Tool>, i: nat, exec: Args -> Outcome<Value>): (r: seq<Tool>)
    requires i < |tools|
    ensures |r| == |tools| && r[i] == tools[i].(execute := exec)
    ensures forall j :: 0 <= j < |tools| && j != i ==> r[j] == tools[j]
  {
    tools[i := tools[i].(execute := exec)]
  }

  /**
   * The post-discovery pass: the first tool named `transfer` gets the
   * transfer override and the first tool named `get_balance` the balance
   * override; every other tool, and every name, description and schema,
   * stays as it was.
   */
  function OverridePass(tools: seq<Tool>, address: string, balanceOf: string -> Outcome<Balance>): (r: seq<Tool>)
    ensures SameNames(r, tools)
    ensures forall i :: 0 <= i < |tools| ==>
      r[i].description == tools[i].description && r[i].parameters == tools[i].parameters
    ensures forall i :: 0 <= i < |tools| ==>
      (FirstIndex(tools, TRANSFER_TOOL) != Some(i) && FirstIndex(tools, BALANCE_TOOL) != Some(i) ==> r[i] == tools[i])
    ensures FirstIndex(tools, TRANSFER_TOOL).Some? ==>
      var i := FirstIndex(tools, TRANSFER_TOOL).value;
      r[i].execute == TransferOverride(tools[i].execute, address)
    ensures FirstIndex(tools, BALANCE_TOOL).Some? ==>
      r[FirstIndex(tools, BALANCE_TOOL).value].execute == BalanceOverride(balanceOf, address)
    ensures FirstIndex(tools, TRANSFER_TOOL).None? && FirstIndex(tools, BALANCE_TOOL).None? ==> r == tools
  {
    var afterTransfer :=
      match FirstIndex(tools, TRANSFER_TOOL)
      case None => tools
      case Some(i) => WithExecute(tools, i, TransferOverride(tools[i].execute, address));
    FirstIndexSameNames(afterTransfer, tools, BALANCE_TOOL);
    match FirstIndex(afterTransfer, BALANCE_TOOL)
    case None => afterTransfer
    case Some(j) => WithExecute(afterTransfer, j, BalanceOverride(balanceOf, address))
  }

  /**
   * Running the adapted `transfer` capability sends the wallet address as
   * the destination, whatever destination the incoming arguments carry, and
   * confirms what the original tool returned.
   */
  lemma TransferCapabilityBindsAddress(tools: seq<Tool>, address: string, balanceOf: string -> Outcome<Balance>,
                                       stringify: Value -> string, i: nat, args: Args)
    requires FirstIndex(tools, TRANSFER_TOOL) == Some(i)
    ensures i < |ToCapabilities(OverridePass(tools, address, balanceOf), stringify)|
    ensures ToCapabilities(OverridePass(tools, address, balanceOf), stringify)[i].run(args)
      == ResponseText(ConfirmTransaction(tools[i].execute(BindDestination(args, address))), stringify)
  {
  }

  // ---------------------------------------------------------------------
  // The same pass, on the array of discovered tools, as the program runs it

  /** `tools.find(...)` over the discovered tools. */
  method FindTool(tools: array<Tool>, name: string) returns (found: Option<nat>)
    ensures found == FirstIndex(tools[..], name)
  {
    var i := 0;
    while i < tools.Length
      invariant 0 <= i <= tools.Length
      invariant forall j :: 0 <= j < i ==> tools[j].name != name
    {
      if tools[i].name == name {
        return Some(i);
      }
      i := i + 1;
    }
    return None;
  }

  /** Installs both overrides on the discovered tools, in place. */
  method InjectContext(tools: array<Tool>, address: string, balanceOf: string -> Outcome<Balance>)
    modifies tools
    ensures tools[..] == OverridePass(old(tools[..]), address, balanceOf)
  {
    ghost var before := tools[..];
    var transfer := FindTool(tools, TRANSFER_TOOL);
    if transfer.Some? {
      var i := transfer.value;
      var original := tools[i].execute;
      tools[i] := tools[i].(execute := TransferOverride(original, address));
    }
    ghost var afterTransfer := tools[..];
    assert SameNames(afterTransfer, before);
    FirstIndexSameNames(afterTransfer, before, BALANCE_TOOL);
    var balance := FindTool(tools, BALANCE_TOOL);
    if balance.Some? {
      var j := balance.value;
      tools[j] := tools[j].(execute := BalanceOverride(balanceOf, address));
    }
  }

  /**
   * Startup: the environment guard first; only when it passes are the
   * overrides installed and the tools adapted into the capabilities that
   * get registered.
   */
  method Startup(env: Environment, tools: array<Tool>, address: string,
                 balanceOf: string -> Outcome<Balance>, stringify: Value -> string)
    returns (registered: Outcome<seq<Capability>>)
    modifies tools
    ensures CheckEnvironment(env).Threw? ==>
      registered == Threw(CheckEnvironment(env).message) && tools[..] == old(tools[..])
    ensures CheckEnvironment(env).Returned? ==>
      && tools[..] == OverridePass(old(tools[..]), address, balanceOf)
      && registered == Returned(ToCapabilities(tools[..], stringify))
  {
    var guard := CheckEnvironment(env);
    if guard.Threw? {
      return Threw(guard.message);
    }
    InjectContext(tools, address, balanceOf);
    registered := Returned(ToCapabilities(tools[..], stringify));
  }

  // ---------------------------------------------------------------------
  // The transfer override as the source writes it

  const STACK_OVERFLOW := "Maximum call stack size exceeded"

  /**
   * The arguments the written wrapper passes on: it destructures an `args`
   * property from its parameter, which adapted capabilities never supply, so
   * only `to` survives.
   */
  function AsWrittenArguments(incoming: Args, address: string): (r: Args)
    ensures "to" in r && r["to"] == Str(address)
    ensures "args" !in incoming ==> r == map["to" := Str(address)]
    ensures "args" in incoming ==> r.Keys == Spread(incoming["args"]).Keys + {"to"}
    ensures "args" in incoming ==> r == BindDestination(Spread(incoming["args"]), address)
  {
    var inner := if "args" in incoming then Spread(incoming["args"]) else map[];
    inner["to" := Str(address)]
  }

  /**
   * What a tool's `execute` property holds, for the override as written:
   * the tool's own function, or the wrapper of lines 104-107, which refers
   * to the property rather than to a captured function.
   */
  datatype ExecuteSlot = Original(exec: Args -> Outcome<Value>) | SelfReadingWrapper(address: string)

  /** Installs the written wrapper into the `execute` property at position `i`. */
  function InstallAsWritten(slots: seq<ExecuteSlot>, i: nat, address: string): (r: seq<ExecuteSlot>)
    requires i < |slots|
    ensures |r| == |slots| && r[i] == SelfReadingWrapper(address)
    ensures forall j :: 0 <= j < |slots| && j != i ==> r[j] == slots[j]
  {
    slots[i := SelfReadingWrapper(address)]
  }

  /**
   * Calls `tools[i].execute` with `args`, reading the property when the call
   * is made, as JavaScript does; the wrapper calls `transferTool.execute`,
   * the same property, again. `depth` is the number of stack frames left.
   */
  function CallSlot(depth: nat, slots: seq<ExecuteSlot>, i: nat, args: Args): (r: Outcome<Value>)
    requires i < |slots|
    ensures slots[i].Original? ==> r == slots[i].exec(args)
    ensures slots[i].SelfReadingWrapper? && depth == 0 ==> r == Threw(Some(STACK_OVERFLOW))
    decreases depth
  {
    match slots[i]
    case Original(exec) => exec(args)
    case SelfReadingWrapper(address) =>
      if depth == 0 then Threw(Some(STACK_OVERFLOW))
      else ConfirmTransaction(CallSlot(depth - 1, slots, i, AsWrittenArguments(args, address)))
  }

  /**
   * Once the written wrapper is installed at position `i`, calling that
   * tool rejects with a stack overflow however deep the stack, whatever the
   * tool's original function was: the property it reads is the wrapper.
   */
  lemma {:induction false} TransferAsWrittenAlwaysThrows(depth: nat, slots: seq<ExecuteSlot>, i: nat,
                                                         address: string, args: Args)
    requires i < |slots|
    ensures CallSlot(depth, InstallAsWritten(slots, i, address), i, args) == Threw(Some(STACK_OVERFLOW))
    decreases depth
  {
    if depth > 0 {
      TransferAsWrittenAlwaysThrows(depth - 1, slots, i, address, AsWrittenArguments(args, address));
    }
  }

  /** The written wrapper drops every argument but the destination, where BindDestination keeps them. */
  lemma AsWrittenArgumentsDropAmount(address: string)
    ensures var incoming := map["to" := Str("0x01"), "amount" := Str("1")];
      && AsWrittenArguments(incoming, address) == map["to" := Str(address)]
      && "amount" !in AsWrittenArguments(incoming, address)
      && BindDestination(incoming, address)["amount"] == Str("1")
  {
  }
}
