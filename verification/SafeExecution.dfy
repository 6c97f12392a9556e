/** Preparing calls for the execution service: task ids, policy checks, payload and idempotency material
    (packages/keeperhub-client/src/safe-execution.ts). */
module SafeExecution {
  import opened Results
  import opened Text
  import opened Numerals
  import opened Lists
  import opened Manifest
  import opened Decimals
  import opened CanonicalJson

  datatype PolicyError =
    | MissingTaskId | InvalidChainId | MalformedAddress | MalformedInteger | MalformedSelector | MalformedSlug
    | NotAllowlisted | AbiMismatch | ReadOnlyFunction | BadValue(e: DecimalError) | NativeValueAboveCap
    | AmountAboveCap | TokenNotAllowed | TokenMisplaced | UnknownParameters | NotCanonicalizable(u: Unsupported)

  type Checked<T> = Result<T, PolicyError>

  function Check(ok: bool, otherwise: PolicyError): Checked<()> {
    if ok then Ok(()) else Err(otherwise)
  }

  /** `String(value)` of the kinds of value an amount may have. */
  function AmountText(v: Option<HostValue>): Option<string> {
    match v
    case Some(VString(s)) => Some(s)
    case Some(VNumber(n)) => Some(n)
    case Some(VNonFinite) => Some("NaN")
    case Some(VBigInt(n)) => Some(IntegerText(n))
    case _ => None
  }

  function NormalizeInteger(v: Option<HostValue>): (r: Checked<nat>)
    ensures r.Ok? <==> AmountText(v).Some? && IsUnsigned(Trim(AmountText(v).value))
    ensures r.Ok? ==> r.value == Value(Trim(AmountText(v).value), Dec)
  {
    match AmountText(v)
    case None => Err(MalformedInteger)
    case Some(text) => if IsUnsigned(Trim(text)) then Ok(Value(Trim(text), Dec)) else Err(MalformedInteger)
  }

  // Task ids

  function Replaced(s: string, c: char, put: string): string {
    if s == "" then "" else (if s[0] == c then put else [s[0]]) + Replaced(s[1..], c, put)
  }

  function EscapeTaskId(value: string): Checked<string> {
    var taskId := Trim(value);
    if taskId == "" then Err(MissingTaskId) else Ok(Replaced(Replaced(taskId, '%', "%25"), '|', "%7C"))
  }

  /** The inverse of the escape. */
  function Unescaped(s: string): string {
    if s == "" then ""
    else if "%25" <= s then "%" + Unescaped(s[3..])
    else if "%7C" <= s then "|" + Unescaped(s[3..])
    else [s[0]] + Unescaped(s[1..])
  }

  lemma {:induction false} ReplacedConcat(a: string, b: string, c: char, put: string)
    ensures Replaced(a + b, c, put) == Replaced(a, c, put) + Replaced(b, c, put)
  {
    if a == "" {
      assert a + b == b;
    } else {
      ReplacedConcat(a[1..], b, c, put);
      assert (a + b)[1..] == a[1..] + b && (a + b)[0] == a[0];
      var head := if a[0] == c then put else [a[0]];
      Associative(head, Replaced(a[1..], c, put), Replaced(b, c, put));
    }
  }

  /** The escape of one character. */
  function Escaped(c: char): string {
    if c == '%' then "%25" else if c == '|' then "%7C" else [c]
  }

  lemma EscapeFirst(s: string)
    requires s != ""
    ensures Replaced(Replaced(s, '%', "%25"), '|', "%7C")
            == Escaped(s[0]) + Replaced(Replaced(s[1..], '%', "%25"), '|', "%7C")
  {
    var head := if s[0] == '%' then "%25" else [s[0]];
    ReplacedConcat(head, Replaced(s[1..], '%', "%25"), '|', "%7C");
    OneCharacter(s[0]);
  }

  lemma OneCharacter(c: char)
    ensures Replaced(if c == '%' then "%25" else [c], '|', "%7C") == Escaped(c)
  {
    if c == '%' {
      assert Replaced("5", '|', "%7C") == "5";
      assert Replaced("25", '|', "%7C") == "25";
      assert "%25"[1..] == "25" && "25"[1..] == "5" && "5"[1..] == "";
    } else {
      assert [c][1..] == "";
    }
  }

  lemma UnescapeFirst(c: char, rest: string)
    ensures Unescaped(Escaped(c) + rest) == [c] + Unescaped(rest)
  {
    var s := Escaped(c) + rest;
    if c == '%' {
      assert s == "%25" + rest && "%25" <= s && s[3..] == rest;
    } else if c == '|' {
      assert s == "%7C" + rest && "%7C" <= s && s[3..] == rest && s[1] == '7';
    } else {
      assert s == [c] + rest && s[0] == c && s[1..] == rest;
    }
  }

  lemma {:induction false} EscapeUndone(s: string)
    ensures var e := Replaced(Replaced(s, '%', "%25"), '|', "%7C"); Unescaped(e) == s && '|' !in e
  {
    if s != "" {
      EscapeFirst(s);
      EscapeUndone(s[1..]);
      UnescapeFirst(s[0], Replaced(Replaced(s[1..], '%', "%25"), '|', "%7C"));
    }
  }

  /** Escaping a task id can be undone up to surrounding space, and leaves no separator. */
  lemma TaskIdRecovered(value: string)
    requires EscapeTaskId(value).Ok?
    ensures Unescaped(EscapeTaskId(value).value) == Trim(value) && '|' !in EscapeTaskId(value).value
  {
    EscapeUndone(Trim(value));
  }

  // Policies

  datatype TokenLocation = AtTarget | AtArgument(index: nat)

  datatype CallRule = CallRule(chainId: int, target: string, functionName: string, functionSelector: string,
                               maxNativeValueWei: string, amountArgumentIndex: Option<nat>,
                               maxAmountBaseUnits: Option<string>, tokenAddress: Option<string>,
                               tokenLocation: Option<TokenLocation>)

  datatype ActionRule = ActionRule(chainId: int, protocol: string, action: string, amountField: Option<string>,
                                   maxAmountBaseUnits: Option<string>, tokenField: Option<string>,
                                   tokenAddress: Option<string>, allowedParameterFields: seq<string>)

  datatype Policy = Policy(contractCalls: seq<CallRule>, protocolActions: seq<ActionRule>)

  /** `selector` is absent where computing it from the entry throws. */
  datatype AbiEntry = AbiEntry(isFunction: bool, name: string, selector: Option<string>, readOnly: bool)

  datatype ContractCall = ContractCall(taskId: string, chainId: int, contractAddress: string, functionName: string,
                                       functionSelector: string, functionArgs: seq<HostValue>, abi: HostValue,
                                       abiEntries: seq<AbiEntry>, value: Option<string>, tokenAddress: Option<string>,
                                       gasLimitMultiplier: Option<string>)

  datatype ProtocolAction = ProtocolAction(taskId: string, chainId: int, protocol: string, action: string,
                                           parameters: seq<Property>)

  datatype Prepared = Prepared(body: HostValue, payloadHash: string, idempotencyKey: string)

  function ChainId(chainId: int): (r: Checked<nat>)
    ensures r.Ok? <==> 1 <= chainId <= MAX_SAFE_INTEGER
    ensures r.Ok? ==> r.value == chainId
  {
    if 1 <= chainId <= MAX_SAFE_INTEGER then Ok(chainId) else Err(InvalidChainId)
  }

  /** The first rule that matches; a malformed target in front of it throws. */
  function FindCallRule(rules: seq<CallRule>, chainId: int, target: string, name: string, selector: string): (r: Checked<CallRule>)
    ensures r.Ok? ==> r.value in rules && r.value.chainId == chainId && IsAddress(r.value.target)
                      && Lower(r.value.target) == target && r.value.functionName == name
                      && Lower(r.value.functionSelector) == selector
  {
    if rules == [] then Err(NotAllowlisted)
    else if rules[0].chainId != chainId then FindCallRule(rules[1..], chainId, target, name, selector)
    else
      var t :- NormalAddress(rules[0].target, MalformedAddress);
      if t == target && rules[0].functionName == name && Lower(rules[0].functionSelector) == selector then Ok(rules[0])
      else FindCallRule(rules[1..], chainId, target, name, selector)
  }

  function FindAbi(entries: seq<AbiEntry>, name: string, selector: string): Checked<AbiEntry> {
    if entries == [] then Err(AbiMismatch)
    else if !entries[0].isFunction || entries[0].name != name then FindAbi(entries[1..], name, selector)
    else if entries[0].selector.None? then Err(AbiMismatch)
    else if entries[0].selector.value == selector then Ok(entries[0])
    else FindAbi(entries[1..], name, selector)
  }

  function ValidateAbi(entries: seq<AbiEntry>, name: string, selector: string): Checked<()> {
    var entry :- FindAbi(entries, name, selector);
    Check(!entry.readOnly, ReadOnlyFunction)
  }

  function Argument(args: seq<HostValue>, index: nat): Option<HostValue> {
    if index < |args| then Some(args[index]) else None
  }

  function NativeValue(value: Option<string>, cap: string): Checked<string> {
    match CanonicalDecimal(value.GetOr("0"))
    case Err(e) => Err(BadValue(e))
    case Ok(canonical) =>
      (match DecimalToUnits(canonical, 18)
       case Err(e) => Err(BadValue(e))
       case Ok(units) =>
         var limit :- NormalizeInteger(Some(VString(cap)));
         var _ :- Check(units <= limit, NativeValueAboveCap);
         Ok(canonical))
  }

  /** An amount against its cap; a rule without a cap, or with an empty one, allows none. */
  function AmountWithin(v: Option<HostValue>, cap: Option<string>): (r: Checked<nat>)
    ensures r.Ok? ==> cap.Some? && IsUnsigned(Trim(cap.value)) && r.value <= Value(Trim(cap.value), Dec)
    ensures r.Ok? ==> AmountText(v).Some? && IsUnsigned(Trim(AmountText(v).value))
                      && r.value == Value(Trim(AmountText(v).value), Dec)
  {
    var amount :- NormalizeInteger(v);
    var _ :- Check(cap.Some? && cap.value != "", AmountAboveCap);
    var limit :- NormalizeInteger(Some(VString(cap.value)));
    var _ :- Check(amount <= limit, AmountAboveCap);
    Ok(amount)
  }

  /** Where a call says its token is. */
  function Located(rule: CallRule, target: string, args: seq<HostValue>): Checked<Option<string>> {
    match rule.tokenLocation
    case Some(AtTarget) => Ok(Some(target))
    case Some(AtArgument(i)) =>
      (match Argument(args, i)
       case Some(VString(s)) => var a :- NormalAddress(s, MalformedAddress); Ok(Some(a))
       case _ => Ok(None))
    case None => Ok(None)
  }

  function NormalizeOptional(s: Option<string>): Checked<Option<string>> {
    if s.None? || s.value == "" then Ok(None) else var a :- NormalAddress(s.value, MalformedAddress); Ok(Some(a))
  }

  function TokenMatches(rule: CallRule, call: ContractCall, target: string): Checked<()> {
    if rule.tokenAddress.None? || rule.tokenAddress.value == "" then Ok(()) else
      var expected :- NormalAddress(rule.tokenAddress.value, MalformedAddress);
      var supplied :- NormalizeOptional(call.tokenAddress);
      var _ :- Check(supplied == Some(expected), TokenNotAllowed);
      var located :- Located(rule, target, call.functionArgs);
      Check(located == Some(expected), TokenMisplaced)
  }

  function TextOf(v: HostValue): Checked<string> {
    match StrictText(v)
    case Err(u) => Err(NotCanonicalizable(u))
    case Ok(text) => Ok(text)
  }

  function CanonicalGas(g: Option<string>): Checked<Option<string>> {
    match g
    case None => Ok(None)
    case Some(s) => match CanonicalDecimal(s) case Err(e) => Err(BadValue(e)) case Ok(c) => Ok(Some(c))
  }

  function Member(key: string, s: string): Property {
    Property(key, VString(s))
  }

  /** The request body; a zero value and an absent gas multiplier are left out. */
  function CallBody(target: string, chainId: nat, name: string, args: string, abi: string, value: string,
                    gas: Option<string>): HostValue {
    VObject([Member("contractAddress", target), Property("chainId", VNumber(Numeral(chainId, Dec))),
             Member("functionName", name), Member("functionArgs", args), Member("abi", abi)]
            + (if value != "0" then [Member("value", value)] else [])
            + (if gas.Some? then [Member("gasLimitMultiplier", gas.value)] else []))
  }

  /** The parts of the idempotency material of a contract call. */
  function CallMaterial(task: string, chainId: nat, target: string, selector: string, argsHash: string, value: string,
                        token: Option<string>): seq<string> {
    [task, Numeral(chainId, Dec), target, selector, argsHash, value, token.GetOr("")]
  }

  function PrepareContractCall(hash: string -> string, call: ContractCall, policy: Policy): Checked<Prepared> {
    var chainId :- ChainId(call.chainId);
    var target :- NormalAddress(call.contractAddress, MalformedAddress);
    var name := Trim(call.functionName);
    var selector := Lower(call.functionSelector);
    var _ :- Check(IsHexOfLength(selector, 8), MalformedSelector);
    var rule :- FindCallRule(policy.contractCalls, chainId, target, name, selector);
    var _ :- ValidateAbi(call.abiEntries, name, selector);
    var value :- NativeValue(call.value, rule.maxNativeValueWei);
    var _ :- if rule.amountArgumentIndex.Some?
      then AmountWithin(Argument(call.functionArgs, rule.amountArgumentIndex.value), rule.maxAmountBaseUnits) else Ok(0);
    var _ :- TokenMatches(rule, call, target);
    var args :- TextOf(VArray(call.functionArgs));
    var abi :- TextOf(call.abi);
    var gas :- CanonicalGas(call.gasLimitMultiplier);
    var body := CallBody(target, chainId, name, args, abi, value, gas);
    var payload :- TextOf(body);
    var task :- EscapeTaskId(call.taskId);
    var token :- NormalizeOptional(call.tokenAddress);
    Ok(Prepared(body, "sha256:" + hash(payload),
                hash(Join(CallMaterial(task, chainId, target, selector, hash(args), value, token), '|'))))
  }

  predicate SlugChar(c: char) {
    'a' <= c <= 'z' || '0' <= c <= '9'
  }

  /** `/^[a-z0-9]+(?:-[a-z0-9]+)*$/u` */
  predicate IsSlug(s: string) {
    && s != "" && s[0] != '-' && s[|s| - 1] != '-'
    && (forall i :: 0 <= i < |s| ==> SlugChar(s[i]) || s[i] == '-')
    && (forall i :: 0 <= i < |s| - 1 ==> !(s[i] == '-' && s[i + 1] == '-'))
  }

  function FindActionRule(rules: seq<ActionRule>, chainId: int, protocol: string, action: string): (r: Checked<ActionRule>)
    ensures r.Ok? ==> r.value in rules && r.value.chainId == chainId && r.value.protocol == protocol && r.value.action == action
  {
    if rules == [] then Err(NotAllowlisted)
    else if rules[0].chainId == chainId && rules[0].protocol == protocol && rules[0].action == action then Ok(rules[0])
    else FindActionRule(rules[1..], chainId, protocol, action)
  }

  function Lookup(fields: seq<Property>, key: string): Option<HostValue> {
    if fields == [] then None else if fields[0].key == key then Some(fields[0].value) else Lookup(fields[1..], key)
  }

  function ActionMaterial(task: string, chainId: nat, protocol: string, action: string, payloadHash: string): seq<string> {
    [task, Numeral(chainId, Dec), protocol, action, payloadHash]
  }

  /** `{ ...parameters, chainId }` */
  function ActionBody(parameters: seq<Property>, chainId: nat): HostValue {
    VObject(Filter((p: Property) => p.key != "chainId", parameters) + [Property("chainId", VNumber(Numeral(chainId, Dec)))])
  }

  function PrepareProtocolAction(hash: string -> string, action: ProtocolAction, policy: Policy): Checked<Prepared> {
    var chainId :- ChainId(action.chainId);
    var protocol, slug := Trim(action.protocol), Trim(action.action);
    var _ :- Check(IsSlug(protocol) && IsSlug(slug), MalformedSlug);
    var rule :- FindActionRule(policy.protocolActions, chainId, protocol, slug);
    var _ :- Check(forall i :: 0 <= i < |action.parameters| ==>
                     action.parameters[i].key == "chainId" || action.parameters[i].key in rule.allowedParameterFields,
                   UnknownParameters);
    var _ :- if rule.amountField.Some? && rule.amountField.value != ""
      then AmountWithin(Lookup(action.parameters, rule.amountField.value), rule.maxAmountBaseUnits) else Ok(0);
    var _ :- ActionToken(rule, action);
    var body := ActionBody(action.parameters, chainId);
    var payload :- TextOf(body);
    var task :- EscapeTaskId(action.taskId);
    var payloadHash := "sha256:" + hash(payload);
    Ok(Prepared(body, payloadHash, hash(Join(ActionMaterial(task, chainId, protocol, slug, payloadHash), '|'))))
  }

  function ActionToken(rule: ActionRule, action: ProtocolAction): Checked<()> {
    if rule.tokenField.None? || rule.tokenField.value == "" || rule.tokenAddress.None? || rule.tokenAddress.value == ""
    then Ok(())
    else
      match Lookup(action.parameters, rule.tokenField.value)
      case Some(VString(s)) =>
        var token :- NormalAddress(s, MalformedAddress);
        var expected :- NormalAddress(rule.tokenAddress.value, MalformedAddress);
        Check(token == expected, TokenNotAllowed)
      case _ => Err(TokenNotAllowed)
  }
}
