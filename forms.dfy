/** What the login and registration forms share: validation as a chain of
    checks run in a fixed order where the first failing check decides the one
    warning shown, and the classification of a rejected auth request. */
module Forms {
  import opened Backend

  const USERNAME_REQUIRED := "Username is a required field"
  const PASSWORD_REQUIRED := "Password is a required field"
  const GENERIC_ERROR := "An error occurred"

  /** The verdict of a `validateInput`: it passes, or fails with the message
      of the warning it showed. */
  datatype Check = Pass | Fail(message: string)

  /** One check of a chain: whether it holds, and the warning it shows when it
      does not. */
  datatype Rule = Rule(holds: bool, message: string)

  /** Position of the first check that does not hold; `|rules|` when all hold. */
  function FirstFailingIndex(rules: seq<Rule>): (k: nat)
    ensures k <= |rules|
    ensures forall j :: 0 <= j < k ==> rules[j].holds
    ensures k < |rules| ==> !rules[k].holds
  {
    if rules == [] then 0
    else if !rules[0].holds then 0
    else 1 + FirstFailingIndex(rules[1..])
  }

  /** The reference meaning of an early-return validation chain: it passes
      exactly when every check holds, and otherwise reports the message of the
      first check that fails, every earlier one having held. */
  function FirstFailure(rules: seq<Rule>): (r: Check)
    ensures r.Pass? <==> forall j :: 0 <= j < |rules| ==> rules[j].holds
    ensures r.Fail? ==>
      exists k :: 0 <= k < |rules| && !rules[k].holds && r.message == rules[k].message
        && forall j :: 0 <= j < k ==> rules[j].holds
  {
    var k := FirstFailingIndex(rules);
    if k == |rules| then Pass else Fail(rules[k].message)
  }

  /** The chain checks its first rule first: if that rule fails, its message
      is the verdict; otherwise the rest of the chain decides. */
  lemma FirstFailureUnfold(rules: seq<Rule>)
    requires rules != []
    ensures FirstFailure(rules) == (if rules[0].holds then FirstFailure(rules[1..]) else Fail(rules[0].message))
  {
  }

  /** The notice of the `catch` block of `login` and `handleRegister`: a 400
      reply shows the server's message, every other failure the generic text. */
  function AuthFailureNotice<T>(reply: Http<T>): (n: Notice)
  {
    if reply.HttpErr? && reply.status == 400 then Notice(reply.message, Error)
    else Notice(GENERIC_ERROR, Error)
  }
}
