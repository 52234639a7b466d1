/** What a handler sends back, and the express-validator checks that run before it. */
module Http {

  /** One entry of the `errors` array of a 422 reply. */
  datatype FieldError = FieldError(param: string, msg: string)

  datatype Reply =
    | Ok(msg: string)                    // 200; `msg` is the fixed message, "" when the handler sends the document back
    | Invalid(errors: seq<FieldError>)   // 422 {errors: [...]}
    | Fail(status: nat, msg: string)     // 401, 404 or 500 with a fixed message

  /** The reply of every `catch` block: 500 'Server Error'. */
  const ServerError: Reply := Fail(500, "Server Error")

  /** check(param, msg).not().isEmpty() on the value the request carries for `param`;
      a missing field reads as "". */
  datatype Check = Check(param: string, msg: string, value: string)

  /** validationResult(req).array(): one error per failing check, in declaration order. */
  function Failures(checks: seq<Check>): (errs: seq<FieldError>)
    ensures errs == [] <==> forall i :: 0 <= i < |checks| ==> checks[i].value != ""
    ensures |errs| <= |checks|
    ensures forall e :: e in errs ==> exists c :: c in checks && c.value == "" && e == FieldError(c.param, c.msg)
  {
    if checks == [] then []
    else
      var rest := Failures(checks[1..]);
      assert forall c :: c in checks[1..] ==> c in checks;
      if checks[0].value == "" then [FieldError(checks[0].param, checks[0].msg)] + rest else rest
  }

  /** The errors of one check. */
  function CheckErrors(c: Check): seq<FieldError> {
    if c.value == "" then [FieldError(c.param, c.msg)] else []
  }

  /** The errors of consecutive groups of checks come out group by group. */
  lemma {:induction false} FailuresAppend(a: seq<Check>, b: seq<Check>)
    ensures Failures(a + b) == Failures(a) + Failures(b)
    decreases |a|
  {
    if a == [] {
      assert a + b == b;
    } else {
      var ab := a + b;
      assert ab[0] == a[0] && ab[1..] == a[1..] + b;
      FailuresAppend(a[1..], b);
      FailuresCons(ab);
      FailuresCons(a);
    }
  }

  /** Every failing check contributes its error. */
  lemma {:induction false} FailuresComplete(checks: seq<Check>)
    ensures forall c :: c in checks && c.value == "" ==> FieldError(c.param, c.msg) in Failures(checks)
    decreases |checks|
  {
    if checks != [] {
      FailuresComplete(checks[1..]);
      FailuresCons(checks);
      forall c | c in checks && c.value == "" ensures FieldError(c.param, c.msg) in Failures(checks) {
        if c != checks[0] {
          assert c in checks[1..];
        }
      }
    }
  }

  /** The errors of two failing checks appear in the order the checks are declared. */
  lemma FailuresOrder(checks: seq<Check>, i: nat, j: nat)
    requires i < j < |checks| && checks[i].value == "" && checks[j].value == ""
    ensures exists p, q ::
              0 <= p < q < |Failures(checks)| &&
              Failures(checks)[p] == FieldError(checks[i].param, checks[i].msg) &&
              Failures(checks)[q] == FieldError(checks[j].param, checks[j].msg)
  {
    var front, back := checks[..j], checks[j..];
    assert checks == front + back;
    FailuresAppend(front, back);
    FailuresComplete(front);
    assert front[i] in front;
    var ei := FieldError(checks[i].param, checks[i].msg);
    var p :| 0 <= p < |Failures(front)| && Failures(front)[p] == ei;
    FailuresCons(back);
    var q := |Failures(front)|;
    assert Failures(checks)[p] == ei;
    assert Failures(checks)[q] == FieldError(checks[j].param, checks[j].msg);
  }

  /** One step of the definition: the first check's errors, then those of the rest. */
  lemma FailuresCons(checks: seq<Check>)
    requires checks != []
    ensures Failures(checks) == CheckErrors(checks[0]) + Failures(checks[1..])
  {
  }
}
