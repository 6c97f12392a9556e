/** Exactly which calls and actions the client prepares, and the literal text behind their keys
    (packages/keeperhub-client/src/safe-execution.ts). */
module PolicyLaws {
  import opened Results
  import opened Text
  import opened Numerals
  import opened Manifest
  import opened Decimals
  import opened CanonicalJson
  import opened HostValues
  import opened Json
  import opened Lists
  import opened Hashing
  import opened SafeExecution
  import L = SafeExecutionLaws

  // Amounts

  /** A host value stands for a whole amount: digits with white space around them, a whole number, a bigint that is not
      negative. */
  predicate Denotes(v: Option<HostValue>, n: nat) {
    match v
    case Some(VString(s)) => IsUnsigned(Trim(s)) && Value(Trim(s), Dec) == n
    case Some(VNumber(s)) => IsUnsigned(Trim(s)) && Value(Trim(s), Dec) == n
    case Some(VBigInt(k)) => k == n
    case _ => false
  }

  lemma IntegerIff(v: Option<HostValue>, n: nat)
    ensures NormalizeInteger(v) == Ok(n) <==> Denotes(v, n)
  {
    hide Trim, Value, AllDigits;
    match v
    case Some(VBigInt(k)) => BigIntDenotes(k);
    case Some(VNonFinite) => NoNumber();
    case _ =>
  }

  lemma NoNumber()
    ensures !IsUnsigned(Trim("NaN"))
  {
    hide Trim, IsSpace;
    LettersNoSpace();
    TrimNoSpace("NaN");
    assert "NaN"[0] == 'N';
  }

  lemma LettersNoSpace()
    ensures !IsSpace('N') && !IsSpace('a') && !IsSpace('-')
  {
  }

  lemma BigIntDenotes(k: int)
    ensures IsUnsigned(Trim(IntegerText(k))) <==> k >= 0
    ensures k >= 0 ==> Value(Trim(IntegerText(k)), Dec) == k
  {
    hide Value, Trim, IsSpace;
    var digits := Numeral(if k < 0 then -k else k, Dec);
    DigitsNoSpace(digits);
    LettersNoSpace();
    TrimNoSpace(IntegerText(k));
    assert k < 0 ==> IntegerText(k)[0] == '-';
  }

  lemma DigitsNoSpace(s: string)
    requires AllDigits(s, Dec)
    ensures forall i | 0 <= i < |s| :: !IsSpace(s[i])
  {
    assert forall i | 0 <= i < |s| :: IsDigit(s[i], Dec);
  }

  /** The amount is at most the cap, which must be there. */
  predicate WithinCap(v: Option<HostValue>, cap: Option<string>) {
    && cap.Some? && IsUnsigned(Trim(cap.value))
    && exists n | 0 <= n <= Value(Trim(cap.value), Dec) :: Denotes(v, n)
  }

  lemma WithinIff(v: Option<HostValue>, cap: Option<string>)
    ensures AmountWithin(v, cap).Ok? <==> WithinCap(v, cap)
  {
    hide Trim, Value, AllDigits, NormalizeInteger, Denotes;
    if NormalizeInteger(v).Ok? {
      IntegerIff(v, NormalizeInteger(v).value);
    }
    if WithinCap(v, cap) {
      var n :| 0 <= n <= Value(Trim(cap.value), Dec) && Denotes(v, n);
      IntegerIff(v, n);
    }
    if cap.Some? {
      CapRead(cap.value);
    }
  }

  lemma CapRead(cap: string)
    ensures NormalizeInteger(Some(VString(cap))).Ok? <==> IsUnsigned(Trim(cap))
    ensures IsUnsigned(Trim(cap)) ==> cap != "" && NormalizeInteger(Some(VString(cap))) == Ok(Value(Trim(cap), Dec))
  {
    hide Value, AllDigits;
  }

  lemma OneCount(d: Decimal, places: nat, m: nat, n: nat)
    requires DecimalOk(d) && IsUnits(d, places, m) && IsUnits(d, places, n)
    ensures m == n
  {
    hide Scaled, Value, AllDigits, Mantissa;
    ScaledInjective(m, n, |d.fraction|);
  }

  lemma NativeIff(value: Option<string>, cap: string)
    ensures NativeValue(value, cap).Ok? <==> L.NativeOk(value.GetOr("0"), cap)
  {
    hide Trim, Value, AllDigits, IsDecimal, Split, IsUnits, DecimalToUnits, CanonicalDecimal, NativeValue;
    if NativeValue(value, cap).Ok? {
      L.NativeWithin(value, cap);
    } else if L.NativeOk(value.GetOr("0"), cap) {
      NativeAccepted(value, cap);
      assert false;
    }
  }

  lemma NativeAccepted(value: Option<string>, cap: string)
    requires L.NativeOk(value.GetOr("0"), cap)
    ensures NativeValue(value, cap).Ok?
  {
    hide Trim, Value, AllDigits, IsDecimal, Split, IsUnits, DecimalToUnits, Reduced, IsReduced, Print, NormalizeInteger;
    var v := value.GetOr("0");
    var wei :| 0 <= wei <= Value(Trim(cap), Dec) && IsUnits(Split(Trim(v)), 18, wei);
    assert CanonicalDecimal(v).Ok?;
    var c := CanonicalDecimal(v).value;
    L.CanonicalNumber(v);
    SameNumberSymmetric(Split(Trim(c)), Split(Trim(v)));
    UnitsTransfer(Split(Trim(v)), Split(Trim(c)), 18, wei);
    UnitsExact(c, 18);
    OneCount(Split(Trim(c)), 18, wei, DecimalToUnits(c, 18).value);
    CapRead(cap);
  }

  // Rules

  /** The first rule of the policy that covers the call; every earlier rule of the chain has a well-formed target. */
  predicate FirstCovering(rules: seq<CallRule>, call: ContractCall, k: nat) {
    && k < |rules| && L.RuleCovers(rules[k], call)
    && forall j | 0 <= j < k :: rules[j].chainId == call.chainId ==> IsAddress(rules[j].target) && !L.RuleCovers(rules[j], call)
  }

  lemma {:induction false} FindsCovering(rules: seq<CallRule>, call: ContractCall) returns (k: nat)
    requires IsAddress(call.contractAddress)
    ensures var found := FindCallRule(rules, call.chainId, Lower(call.contractAddress), Trim(call.functionName),
                                      Lower(call.functionSelector));
      if found.Ok? then FirstCovering(rules, call, k) && found.value == rules[k]
      else forall j | 0 <= j < |rules| :: !FirstCovering(rules, call, j)
  {
    hide IsAddress, Lower, Trim, FirstCovering;
    k := 0;
    if rules != [] {
      if L.RuleCovers(rules[0], call) {
        CoveringFirst(rules, call);
      } else if rules[0].chainId == call.chainId && !IsAddress(rules[0].target) {
        CoveringBlocked(rules, call);
      } else {
        k := FindsCovering(rules[1..], call);
        CoveringShifts(rules, call);
        if FirstCovering(rules[1..], call, k) {
          CoveringInRange(rules[1..], call, k);
          assert rules[k + 1] == rules[1..][k];
        }
        k := k + 1;
      }
    }
  }

  lemma CoveringFirst(rules: seq<CallRule>, call: ContractCall)
    requires rules != [] && L.RuleCovers(rules[0], call)
    ensures FirstCovering(rules, call, 0)
  {
  }

  lemma CoveringBlocked(rules: seq<CallRule>, call: ContractCall)
    requires rules != [] && rules[0].chainId == call.chainId && !IsAddress(rules[0].target)
    ensures forall j | 0 <= j < |rules| :: !FirstCovering(rules, call, j)
  {
    hide IsAddress;
  }

  lemma CoveringShifts(rules: seq<CallRule>, call: ContractCall)
    requires rules != [] && !L.RuleCovers(rules[0], call)
    requires rules[0].chainId != call.chainId || IsAddress(rules[0].target)
    ensures forall j: nat | j > 0 :: FirstCovering(rules, call, j) <==> FirstCovering(rules[1..], call, j - 1)
    ensures !FirstCovering(rules, call, 0)
  {
    hide L.RuleCovers, IsAddress;
    forall j: nat | j > 0 ensures FirstCovering(rules, call, j) <==> FirstCovering(rules[1..], call, j - 1) {
      assert forall i | 0 < i < |rules| :: rules[i] == rules[1..][i - 1];
      if FirstCovering(rules, call, j) {
        forall i | 0 <= i < j - 1 && rules[1..][i].chainId == call.chainId
          ensures IsAddress(rules[1..][i].target) && !L.RuleCovers(rules[1..][i], call)
        {
          assert rules[1..][i] == rules[i + 1];
        }
      }
    }
  }

  lemma OneCovering(rules: seq<CallRule>, call: ContractCall, j: nat, k: nat)
    requires FirstCovering(rules, call, j) && FirstCovering(rules, call, k)
    ensures j == k
  {
    hide IsAddress;
  }

  /** The ABI's first function of this name with this selector, and every earlier one of the name has another. */
  predicate FirstEntry(entries: seq<AbiEntry>, name: string, selector: string, k: nat) {
    && k < |entries| && entries[k].isFunction && entries[k].name == name && entries[k].selector == Some(selector)
    && forall j | 0 <= j < k :: entries[j].isFunction && entries[j].name == name ==>
         entries[j].selector.Some? && entries[j].selector.value != selector
  }

  predicate BindsWrite(entries: seq<AbiEntry>, name: string, selector: string) {
    exists k | 0 <= k < |entries| :: FirstEntry(entries, name, selector, k) && !entries[k].readOnly
  }

  lemma {:induction false} FindsEntry(entries: seq<AbiEntry>, name: string, selector: string) returns (k: nat)
    ensures var found := FindAbi(entries, name, selector);
      if found.Ok? then FirstEntry(entries, name, selector, k) && found.value == entries[k]
      else forall j | 0 <= j < |entries| :: !FirstEntry(entries, name, selector, j)
  {
    k := 0;
    if entries != [] && (!entries[0].isFunction || entries[0].name != name
                         || (entries[0].selector.Some? && entries[0].selector.value != selector)) {
      k := FindsEntry(entries[1..], name, selector);
      assert forall j | 0 < j < |entries| :: entries[j] == entries[1..][j - 1];
      forall j | 0 < j < |entries| && FirstEntry(entries, name, selector, j)
        ensures FirstEntry(entries[1..], name, selector, j - 1)
      {
      }
      k := k + 1;
    }
  }

  lemma OneEntry(entries: seq<AbiEntry>, name: string, selector: string, j: nat, k: nat)
    requires FirstEntry(entries, name, selector, j) && FirstEntry(entries, name, selector, k)
    ensures j == k
  {
  }

  lemma BindsIff(entries: seq<AbiEntry>, name: string, selector: string)
    ensures ValidateAbi(entries, name, selector).Ok? <==> BindsWrite(entries, name, selector)
  {
    hide FindAbi, FirstEntry;
    var k := FindsEntry(entries, name, selector);
    if FindAbi(entries, name, selector).Ok? {
      EntryInRange(entries, name, selector, k);
      if j :| 0 <= j < |entries| && FirstEntry(entries, name, selector, j) && !entries[j].readOnly {
        OneEntry(entries, name, selector, j, k);
      }
    }
  }

  lemma EntryInRange(entries: seq<AbiEntry>, name: string, selector: string, k: nat)
    requires FirstEntry(entries, name, selector, k)
    ensures k < |entries|
  {
  }

  predicate AddressIs(s: Option<string>, address: string) {
    s.Some? && IsAddress(s.value) && IsAddress(address) && Lower(s.value) == Lower(address)
  }

  /** A rule with a token: the call names it, and it is the target or the argument that the rule points at. */
  predicate OnToken(rule: CallRule, call: ContractCall) {
    L.IsSet(rule.tokenAddress) ==>
      && AddressIs(call.tokenAddress, rule.tokenAddress.value)
      && match rule.tokenLocation
         case Some(AtTarget) => AddressIs(Some(call.contractAddress), rule.tokenAddress.value)
         case Some(AtArgument(i)) => i < |call.functionArgs| && L.TokenIs(Some(call.functionArgs[i]), rule.tokenAddress.value)
         case None => false
  }

  lemma TokenIff(rule: CallRule, call: ContractCall)
    requires IsAddress(call.contractAddress)
    ensures TokenMatches(rule, call, Lower(call.contractAddress)).Ok? <==> OnToken(rule, call)
  {
    hide IsAddress, Lower;
    EmptyIsNoAddress();
  }

  lemma EmptyIsNoAddress()
    ensures !IsAddress("")
  {
  }

  /** The rule takes the call: its native value, its amount and its token. */
  predicate Takes(rule: CallRule, call: ContractCall) {
    && L.NativeOk(call.value.GetOr("0"), rule.maxNativeValueWei)
    && (rule.amountArgumentIndex.Some? ==>
          rule.amountArgumentIndex.value < |call.functionArgs|
          && WithinCap(Some(call.functionArgs[rule.amountArgumentIndex.value]), rule.maxAmountBaseUnits))
    && OnToken(rule, call)
  }

  /** The call is well formed in itself. */
  predicate Callable(call: ContractCall) {
    && 1 <= call.chainId <= MAX_SAFE_INTEGER && IsAddress(call.contractAddress) && IsHexOfLength(Lower(call.functionSelector), 8)
    && Trim(call.taskId) != "" && (L.IsSet(call.tokenAddress) ==> IsAddress(call.tokenAddress.value))
    && (call.gasLimitMultiplier.Some? ==> IsDecimal(Trim(call.gasLimitMultiplier.value)))
    && (forall i | 0 <= i < |call.functionArgs| :: Writable(call.functionArgs[i])) && Writable(call.abi)
    && BindsWrite(call.abiEntries, Trim(call.functionName), Lower(call.functionSelector))
  }

  predicate Permitted(call: ContractCall, policy: Policy) {
    exists k | 0 <= k < |policy.contractCalls| ::
      FirstCovering(policy.contractCalls, call, k) && Takes(policy.contractCalls[k], call)
  }

  /** The call is prepared exactly when it is well formed and the first rule that covers it takes it. */
  lemma PreparedIff(hash: Hash, call: ContractCall, policy: Policy)
    ensures PrepareContractCall(hash, call, policy).Ok? <==> Callable(call) && Permitted(call, policy)
  {
    hide PrepareContractCall, Callable, Permitted, Takes, FirstCovering, Trim, Lower, IsAddress, IsHexOfLength, FindCallRule;
    PrepareSteps(hash, call, policy);
    PartsRead(call);
    if IsAddress(call.contractAddress) {
      var k := FindsCovering(policy.contractCalls, call);
      PermittedIff(call, policy, k);
      if Found(call, policy).Ok? {
        TakesIff(Found(call, policy).value, call);
      }
    }
    CallableParts(call);
  }

  function Found(call: ContractCall, policy: Policy): Checked<CallRule>
    requires IsAddress(call.contractAddress)
  {
    FindCallRule(policy.contractCalls, call.chainId, Lower(call.contractAddress), Trim(call.functionName),
                 Lower(call.functionSelector))
  }

  /** The checks in the order of the preparation. */
  predicate RuleSteps(rule: CallRule, call: ContractCall)
    requires IsAddress(call.contractAddress)
  {
    && NativeValue(call.value, rule.maxNativeValueWei).Ok?
    && (rule.amountArgumentIndex.Some? ==>
          AmountWithin(Argument(call.functionArgs, rule.amountArgumentIndex.value), rule.maxAmountBaseUnits).Ok?)
    && TokenMatches(rule, call, Lower(call.contractAddress)).Ok?
  }

  predicate CallSteps(call: ContractCall) {
    && ChainId(call.chainId).Ok? && IsAddress(call.contractAddress) && IsHexOfLength(Lower(call.functionSelector), 8)
    && ValidateAbi(call.abiEntries, Trim(call.functionName), Lower(call.functionSelector)).Ok?
    && TextOf(VArray(call.functionArgs)).Ok? && TextOf(call.abi).Ok? && CanonicalGas(call.gasLimitMultiplier).Ok?
    && EscapeTaskId(call.taskId).Ok? && NormalizeOptional(call.tokenAddress).Ok?
  }

  lemma PrepareSteps(hash: Hash, call: ContractCall, policy: Policy)
    ensures PrepareContractCall(hash, call, policy).Ok? <==>
      && CallSteps(call) && Found(call, policy).Ok? && RuleSteps(Found(call, policy).value, call)
  {
    hide Trim, Lower, IsAddress, IsHexOfLength, FindCallRule, ValidateAbi, NativeValue, AmountWithin, TokenMatches, StrictText,
         CanonicalGas, EscapeTaskId, NormalizeOptional, CallBody;
    forall target, chainId: nat, name, args, abi, value, gas
      ensures TextOf(CallBody(target, chainId, name, args, abi, value, gas)).Ok?
    {
      BodyHasText(target, chainId, name, args, abi, value, gas);
    }
  }

  lemma BodyHasText(target: string, chainId: nat, name: string, args: string, abi: string, value: string, gas: Option<string>)
    ensures TextOf(CallBody(target, chainId, name, args, abi, value, gas)).Ok?
  {
    hide StrictText;
    var p := L.Payload(target, chainId, name, args, abi, value, gas);
    L.PayloadTextInjective(p, p);
    assert CallBody(target, chainId, name, args, abi, value, gas) == VObject(L.BodyFields(p));
  }

  lemma PermittedIff(call: ContractCall, policy: Policy, k: nat)
    requires IsAddress(call.contractAddress)
    requires if Found(call, policy).Ok? then FirstCovering(policy.contractCalls, call, k)
                                             && Found(call, policy).value == policy.contractCalls[k]
             else forall j | 0 <= j < |policy.contractCalls| :: !FirstCovering(policy.contractCalls, call, j)
    ensures Permitted(call, policy) <==> Found(call, policy).Ok? && Takes(Found(call, policy).value, call)
  {
    hide Takes, FindCallRule, FirstCovering, IsAddress;
    var rules := policy.contractCalls;
    if j :| 0 <= j < |rules| && FirstCovering(rules, call, j) && Takes(rules[j], call) {
      OneCovering(rules, call, j, k);
    }
    if Found(call, policy).Ok? {
      CoveringInRange(rules, call, k);
    }
  }

  lemma TakesIff(rule: CallRule, call: ContractCall)
    requires IsAddress(call.contractAddress)
    ensures RuleSteps(rule, call) <==> Takes(rule, call)
  {
    hide IsAddress, Lower, NativeValue, L.NativeOk, AmountWithin, WithinCap, TokenMatches, OnToken;
    NativeIff(call.value, rule.maxNativeValueWei);
    TokenIff(rule, call);
    if rule.amountArgumentIndex.Some? {
      WithinIff(Argument(call.functionArgs, rule.amountArgumentIndex.value), rule.maxAmountBaseUnits);
      if rule.amountArgumentIndex.value >= |call.functionArgs| {
        NothingWithin(rule.maxAmountBaseUnits);
      }
    }
  }

  lemma NothingWithin(cap: Option<string>)
    ensures !WithinCap(None, cap)
  {
    hide Trim, Value, AllDigits;
  }

  lemma CoveringInRange(rules: seq<CallRule>, call: ContractCall, k: nat)
    requires FirstCovering(rules, call, k)
    ensures k < |rules|
  {
    hide L.RuleCovers, IsAddress;
  }

  /** Reads of the parts of a call. */
  predicate PartsReadable(call: ContractCall) {
    && (TextOf(VArray(call.functionArgs)).Ok? <==> forall i | 0 <= i < |call.functionArgs| :: Writable(call.functionArgs[i]))
    && (TextOf(call.abi).Ok? <==> Writable(call.abi))
    && (CanonicalGas(call.gasLimitMultiplier).Ok?
        <==> (call.gasLimitMultiplier.Some? ==> IsDecimal(Trim(call.gasLimitMultiplier.value))))
    && (EscapeTaskId(call.taskId).Ok? <==> Trim(call.taskId) != "")
    && (NormalizeOptional(call.tokenAddress).Ok? <==> (L.IsSet(call.tokenAddress) ==> IsAddress(call.tokenAddress.value)))
    && (ValidateAbi(call.abiEntries, Trim(call.functionName), Lower(call.functionSelector)).Ok?
        <==> BindsWrite(call.abiEntries, Trim(call.functionName), Lower(call.functionSelector)))
  }

  lemma PartsRead(call: ContractCall)
    ensures PartsReadable(call)
  {
    hide Trim, Lower, IsAddress, IsDecimal, StrictTree, CanonicalText, Print, Reduced, Split, ValidateAbi, BindsWrite;
    WritableIff(VArray(call.functionArgs));
    WritableIff(call.abi);
    BindsIff(call.abiEntries, Trim(call.functionName), Lower(call.functionSelector));
  }

  lemma CallableParts(call: ContractCall)
    requires PartsReadable(call)
    ensures CallSteps(call) <==> Callable(call)
  {
    hide Trim, Lower, IsAddress, IsDecimal, StrictText, ValidateAbi, BindsWrite, IsHexOfLength, CanonicalGas, EscapeTaskId,
         NormalizeOptional, Writable;
  }

  // Protocol actions

  predicate SlugWord(w: string) {
    w != "" && forall i | 0 <= i < |w| :: SlugChar(w[i])
  }

  predicate SlugWords(words: seq<string>) {
    words != [] && forall k | 0 <= k < |words| :: SlugWord(words[k])
  }

  /** A slug is a text of words in lower-case letters and digits with single dashes between them. */
  lemma SlugIff(s: string)
    ensures IsSlug(s) <==> exists words :: SlugWords(words) && s == Join(words, '-')
  {
    hide IsSlug, Join, SlugWords;
    if IsSlug(s) {
      var words := WordsOf(s);
    }
    if words :| SlugWords(words) && s == Join(words, '-') {
      JoinedIsSlug(words);
    }
  }

  lemma {:induction false} WordsOf(s: string) returns (words: seq<string>)
    requires IsSlug(s)
    ensures SlugWords(words) && s == Join(words, '-')
    decreases |s|
  {
    if k :| 0 <= k < |s| && s[k] == '-' && '-' !in s[..k] {
      var rest := s[k + 1..];
      assert forall i | 0 <= i < |rest| :: rest[i] == s[k + 1 + i];
      assert rest != "" && rest[|rest| - 1] == s[|s| - 1];
      assert IsSlug(rest);
      var tail := WordsOf(rest);
      words := [s[..k]] + tail;
      WordsJoin(s[..k], tail, k, s);
    } else {
      NoDash(s);
      words := [s];
    }
  }

  lemma WordsJoin(w: string, tail: seq<string>, k: nat, s: string)
    requires IsSlug(s) && k < |s| && s[k] == '-' && w == s[..k] && '-' !in w
    requires SlugWords(tail) && Join(tail, '-') == s[k + 1..]
    ensures SlugWords([w] + tail) && Join([w] + tail, '-') == s
  {
    assert ([w] + tail)[1..] == tail;
    assert s == s[..k] + ['-'] + s[k + 1..];
    assert SlugWord(w) by {
      forall i | 0 <= i < |w| ensures SlugChar(w[i]) {
        assert w[i] in w;
      }
    }
  }

  /** A text without a first dash has none. */
  lemma NoDash(s: string)
    requires !exists k | 0 <= k < |s| :: s[k] == '-' && '-' !in s[..k]
    ensures '-' !in s
  {
    if '-' in s {
      var k := FirstDash(s);
    }
  }

  lemma {:induction false} FirstDash(s: string) returns (k: nat)
    requires '-' in s
    ensures k < |s| && s[k] == '-' && '-' !in s[..k]
  {
    if s[0] == '-' {
      k := 0;
    } else {
      var j := FirstDash(s[1..]);
      k := j + 1;
      assert s[..k] == [s[0]] + s[1..][..j];
    }
  }

  lemma {:induction false} JoinedIsSlug(words: seq<string>)
    requires SlugWords(words)
    ensures IsSlug(Join(words, '-'))
  {
    if |words| > 1 {
      JoinedIsSlug(words[1..]);
      WordThenSlug(words[0], Join(words[1..], '-'));
    }
  }

  lemma WordThenSlug(w: string, rest: string)
    requires SlugWord(w) && IsSlug(rest)
    ensures IsSlug(w + ['-'] + rest)
  {
    var s := w + ['-'] + rest;
    assert forall i | 0 <= i < |s| :: s[i] == if i < |w| then w[i] else if i == |w| then '-' else rest[i - |w| - 1];
  }

  predicate ActionMatches(rule: ActionRule, action: ProtocolAction) {
    rule.chainId == action.chainId && rule.protocol == Trim(action.protocol) && rule.action == Trim(action.action)
  }

  predicate FirstMatching(rules: seq<ActionRule>, action: ProtocolAction, k: nat) {
    k < |rules| && ActionMatches(rules[k], action) && forall j | 0 <= j < k :: !ActionMatches(rules[j], action)
  }

  /** The rule takes the action: no other parameters than its own, its amount within the cap, its token. */
  predicate TakesAction(rule: ActionRule, action: ProtocolAction) {
    && (forall i | 0 <= i < |action.parameters| ::
          action.parameters[i].key == "chainId" || action.parameters[i].key in rule.allowedParameterFields)
    && (L.IsSet(rule.amountField) ==> WithinCap(Lookup(action.parameters, rule.amountField.value), rule.maxAmountBaseUnits))
    && (L.IsSet(rule.tokenField) && L.IsSet(rule.tokenAddress) ==>
          L.TokenIs(Lookup(action.parameters, rule.tokenField.value), rule.tokenAddress.value))
  }

  predicate ActionCallable(action: ProtocolAction) {
    && 1 <= action.chainId <= MAX_SAFE_INTEGER && IsSlug(Trim(action.protocol)) && IsSlug(Trim(action.action))
    && Trim(action.taskId) != ""
    && forall i | 0 <= i < |action.parameters| :: action.parameters[i].key == "chainId" || Writable(action.parameters[i].value)
  }

  predicate ActionPermitted(action: ProtocolAction, policy: Policy) {
    exists k | 0 <= k < |policy.protocolActions| ::
      FirstMatching(policy.protocolActions, action, k) && TakesAction(policy.protocolActions[k], action)
  }

  function FoundAction(action: ProtocolAction, policy: Policy): Checked<ActionRule> {
    FindActionRule(policy.protocolActions, action.chainId, Trim(action.protocol), Trim(action.action))
  }

  lemma {:induction false} FindsAction(rules: seq<ActionRule>, action: ProtocolAction) returns (k: nat)
    ensures var found := FindActionRule(rules, action.chainId, Trim(action.protocol), Trim(action.action));
      if found.Ok? then FirstMatching(rules, action, k) && found.value == rules[k]
      else forall j | 0 <= j < |rules| :: !ActionMatches(rules[j], action)
  {
    hide Trim;
    k := 0;
    if rules != [] && !ActionMatches(rules[0], action) {
      k := FindsAction(rules[1..], action);
      assert forall j | 0 < j < |rules| :: rules[j] == rules[1..][j - 1];
      k := k + 1;
    }
  }

  /** An action is prepared exactly when it is well formed and the first rule for its chain and slugs takes it. */
  lemma ActionPreparedIff(hash: Hash, action: ProtocolAction, policy: Policy)
    ensures PrepareProtocolAction(hash, action, policy).Ok? <==> ActionCallable(action) && ActionPermitted(action, policy)
  {
    hide PrepareProtocolAction, ActionCallable, TakesAction, Trim, IsSlug, FindActionRule;
    ActionSteps(hash, action, policy);
    var k := FindsAction(policy.protocolActions, action);
    ActionPermittedIff(action, policy, k);
    if FoundAction(action, policy).Ok? {
      TakesActionIff(FoundAction(action, policy).value, action);
    }
    ActionParts(action);
  }

  predicate ActionRuleSteps(rule: ActionRule, action: ProtocolAction) {
    && (forall i :: 0 <= i < |action.parameters| ==>
          action.parameters[i].key == "chainId" || action.parameters[i].key in rule.allowedParameterFields)
    && (L.IsSet(rule.amountField) ==>
          AmountWithin(Lookup(action.parameters, rule.amountField.value), rule.maxAmountBaseUnits).Ok?)
    && ActionToken(rule, action).Ok?
  }

  predicate ActionCallSteps(action: ProtocolAction) {
    && ChainId(action.chainId).Ok? && IsSlug(Trim(action.protocol)) && IsSlug(Trim(action.action))
    && EscapeTaskId(action.taskId).Ok? && TextOf(ActionBody(action.parameters, ChainId(action.chainId).value)).Ok?
  }

  lemma ActionSteps(hash: Hash, action: ProtocolAction, policy: Policy)
    ensures PrepareProtocolAction(hash, action, policy).Ok? <==>
      ActionCallSteps(action) && FoundAction(action, policy).Ok? && ActionRuleSteps(FoundAction(action, policy).value, action)
  {
    hide Trim, FindActionRule, AmountWithin, ActionToken, StrictText, EscapeTaskId, ActionBody, IsSlug, Lookup;
  }

  lemma ActionPermittedIff(action: ProtocolAction, policy: Policy, k: nat)
    requires if FoundAction(action, policy).Ok? then FirstMatching(policy.protocolActions, action, k)
                                                   && FoundAction(action, policy).value == policy.protocolActions[k]
             else forall j | 0 <= j < |policy.protocolActions| :: !ActionMatches(policy.protocolActions[j], action)
    ensures ActionPermitted(action, policy) <==>
      FoundAction(action, policy).Ok? && TakesAction(FoundAction(action, policy).value, action)
  {
    hide TakesAction, FindActionRule, ActionMatches;
  }

  lemma TakesActionIff(rule: ActionRule, action: ProtocolAction)
    ensures ActionRuleSteps(rule, action) <==> TakesAction(rule, action)
  {
    hide IsAddress, Lower, AmountWithin, WithinCap, Lookup;
    if L.IsSet(rule.amountField) {
      WithinIff(Lookup(action.parameters, rule.amountField.value), rule.maxAmountBaseUnits);
    }
  }

  lemma ActionParts(action: ProtocolAction)
    ensures ActionCallSteps(action) <==> ActionCallable(action)
  {
    hide Trim, IsSlug, StrictTree, CanonicalText, ActionBody;
    if 1 <= action.chainId {
      BodyWritable(action.parameters, action.chainId);
    }
  }

  lemma BodyWritable(parameters: seq<Property>, chainId: nat)
    ensures TextOf(ActionBody(parameters, chainId)).Ok? <==>
      forall i | 0 <= i < |parameters| :: parameters[i].key == "chainId" || Writable(parameters[i].value)
  {
    hide StrictTree, CanonicalText, Writable;
    var body := ActionBody(parameters, chainId);
    WritableIff(body);
    BodyMembers(parameters, chainId);
    MembersWritable(body.fields);
    NumberWritable(Numeral(chainId, Dec));
    if Writable(body) {
      forall i | 0 <= i < |parameters| && parameters[i].key != "chainId" ensures Writable(parameters[i].value) {
        assert parameters[i] in body.fields;
      }
    }
  }

  lemma NumberWritable(n: string)
    ensures Writable(VNumber(n))
  {
  }

  lemma MembersWritable(fields: seq<Property>)
    ensures Writable(VObject(fields)) <==> forall p | p in fields :: Writable(p.value)
  {
  }

  /** The body of an action: its parameters with the chain in place of whatever they say of it. */
  lemma BodyMembers(parameters: seq<Property>, chainId: nat)
    ensures ActionBody(parameters, chainId).VObject?
    ensures forall p :: p in ActionBody(parameters, chainId).fields <==>
      (p in parameters && p.key != "chainId") || p == Property("chainId", VNumber(Numeral(chainId, Dec)))
    ensures ProperFields(parameters) ==> ProperFields(ActionBody(parameters, chainId).fields)
  {
    hide ProperFields, Numeral;
    var f := (p: Property) => p.key != "chainId";
    assert ActionBody(parameters, chainId).fields == Filter(f, parameters) + [Property("chainId", VNumber(Numeral(chainId, Dec)))];
    if ProperFields(parameters) {
      FilteredProper(parameters, f, chainId);
    }
  }

  lemma {:induction false} FilteredProper(fields: seq<Property>, f: Property -> bool, chainId: nat)
    requires ProperFields(fields) && forall p :: f(p) <==> p.key != "chainId"
    ensures ProperFields(Filter(f, fields) + [Property("chainId", VNumber(Numeral(chainId, Dec)))])
  {
    hide ProperFields, Proper, Numeral, IsNumeral, PropertyKeys;
    var last := [Property("chainId", VNumber(Numeral(chainId, Dec)))];
    if fields == [] {
      ChainMemberProper(chainId);
      assert Filter(f, fields) + last == last;
    } else {
      ProperParts(fields);
      FilteredProper(fields[1..], f, chainId);
      var rest := Filter(f, fields[1..]);
      if f(fields[0]) {
        FilteredKey(fields[1..], f, last, fields[0].key);
        ProperCons(fields[0], rest + last);
        assert Filter(f, fields) + last == [fields[0]] + (rest + last);
      } else {
        assert Filter(f, fields) == rest;
      }
    }
  }

  lemma ProperParts(fields: seq<Property>)
    requires fields != [] && ProperFields(fields)
    ensures Proper(fields[0].value) && fields[0].key !in PropertyKeys(fields[1..]) && ProperFields(fields[1..])
  {
  }

  lemma ProperCons(p: Property, rest: seq<Property>)
    requires Proper(p.value) && p.key !in PropertyKeys(rest) && ProperFields(rest)
    ensures ProperFields([p] + rest)
  {
    assert ([p] + rest)[1..] == rest;
  }

  lemma ChainMemberProper(chainId: nat)
    ensures ProperFields([Property("chainId", VNumber(Numeral(chainId, Dec)))])
  {
    hide Numeral, IsNumeral;
    L.NumeralIsNumeral(chainId);
    NumberProper(Numeral(chainId, Dec));
    ProperCons(Property("chainId", VNumber(Numeral(chainId, Dec))), []);
    assert [Property("chainId", VNumber(Numeral(chainId, Dec)))] + [] == [Property("chainId", VNumber(Numeral(chainId, Dec)))];
  }

  lemma NumberProper(n: string)
    ensures Proper(VNumber(n)) <==> IsNumeral(n)
  {
  }

  lemma {:induction false} FilteredKey(fields: seq<Property>, f: Property -> bool, last: seq<Property>, key: string)
    requires key !in PropertyKeys(fields) && |last| == 1 && last[0].key != key
    ensures key !in PropertyKeys(Filter(f, fields) + last)
  {
    L.KeyPresent(fields, key);
    L.KeyPresent(Filter(f, fields) + last, key);
    forall i | 0 <= i < |Filter(f, fields) + last| ensures (Filter(f, fields) + last)[i].key != key {
      if i < |Filter(f, fields)| {
        assert Filter(f, fields)[i] in fields;
      }
    }
  }

  // Keys

  /** The text that is hashed for the key of a call. */
  lemma CallKeyText(hash: Hash, call: ContractCall, policy: Policy)
    requires PrepareContractCall(hash, call, policy).Ok?
    ensures L.Preparable(call) && EscapeTaskId(call.taskId).Ok?
    ensures PrepareContractCall(hash, call, policy).value.idempotencyKey
      == hash(EscapeTaskId(call.taskId).value + "|" + Numeral(call.chainId, Dec) + "|" + Lower(call.contractAddress) + "|"
              + Lower(call.functionSelector) + "|" + hash(StrictText(VArray(call.functionArgs)).value) + "|"
              + CanonicalDecimal(call.value.GetOr("0")).value + "|"
              + (if L.IsSet(call.tokenAddress) then Lower(call.tokenAddress.value) else ""))
  {
    hide PrepareContractCall, EscapeTaskId, Lower, StrictText, CanonicalDecimal, Join, IsAddress;
    L.PreparedKey(hash, call, policy);
    JoinSeven(EscapeTaskId(call.taskId).value, Numeral(call.chainId, Dec), Lower(call.contractAddress),
              Lower(call.functionSelector), hash(StrictText(VArray(call.functionArgs)).value),
              CanonicalDecimal(call.value.GetOr("0")).value,
              if L.IsSet(call.tokenAddress) then Lower(call.tokenAddress.value) else "");
  }

  /** The text that is hashed for the key of an action. */
  lemma ActionKeyText(hash: Hash, action: ProtocolAction, policy: Policy)
    requires PrepareProtocolAction(hash, action, policy).Ok?
    ensures EscapeTaskId(action.taskId).Ok? && action.chainId >= 0
    ensures StrictText(ActionBody(action.parameters, action.chainId)).Ok?
    ensures PrepareProtocolAction(hash, action, policy).value.idempotencyKey
      == hash(EscapeTaskId(action.taskId).value + "|" + Numeral(action.chainId, Dec) + "|" + Trim(action.protocol) + "|"
              + Trim(action.action) + "|" + ("sha256:" + hash(StrictText(ActionBody(action.parameters, action.chainId)).value)))
  {
    hide PrepareProtocolAction, EscapeTaskId, Trim, StrictText, Join, ActionBody, IsSlug;
    L.PreparedAction(hash, action, policy);
    var payloadHash := "sha256:" + hash(StrictText(ActionBody(action.parameters, action.chainId)).value);
    JoinFive(EscapeTaskId(action.taskId).value, Numeral(action.chainId, Dec), Trim(action.protocol), Trim(action.action), payloadHash);
  }

  lemma JoinFive(a: string, b: string, c: string, d: string, e: string)
    ensures Join([a, b, c, d, e], '|') == a + "|" + b + "|" + c + "|" + d + "|" + e
  {
    hide Join;
    JoinCons(a, [b, c, d, e], '|');
    JoinCons(b, [c, d, e], '|');
    JoinCons(c, [d, e], '|');
    JoinCons(d, [e], '|');
    JoinLast(e);
    assert [a] + [b, c, d, e] == [a, b, c, d, e] && [b] + [c, d, e] == [b, c, d, e];
    assert [c] + [d, e] == [c, d, e] && [d] + [e] == [d, e];
  }

  lemma JoinLast(a: string)
    ensures Join([a], '|') == a
  {
  }

  lemma JoinSeven(a: string, b: string, c: string, d: string, e: string, f: string, g: string)
    ensures Join([a, b, c, d, e, f, g], '|')
            == a + "|" + b + "|" + c + "|" + d + "|" + e + "|" + f + "|" + g
  {
    hide Join;
    JoinCons(a, [b, c, d, e, f, g], '|');
    JoinCons(b, [c, d, e, f, g], '|');
    JoinFive(c, d, e, f, g);
    assert [a] + [b, c, d, e, f, g] == [a, b, c, d, e, f, g] && [b] + [c, d, e, f, g] == [b, c, d, e, f, g];
  }
}
