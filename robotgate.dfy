/**
 * The robot check of src/tbw/ui/RobotGate.jsx: the stored pass flag, the
 * addition challenge and `submit`. The two `Math.random()` draws are the
 * parameters `ra` and `rb`, the clock is `now`, and `onOk` being called is
 * the result of `Submit`.
 */
module RobotGate {
  import opened Text
  import opened Json
  import opened WebStorage
  import opened Storage

  const RobotOkKey: string := "tbw_robot_ok_v1"
  const RobotTimestampKey: string := "tbw_robot_ts"

  /** `robotOk()`: the stored flag is truthy. */
  predicate RobotOk(items: map<string, Raw>) {
    var s := ReadStore(items);
    RobotOkKey in s && Truthy(s[RobotOkKey])
  }

  /** `{ a, b, ans }`: the two operands and the expected answer. */
  datatype Challenge = Challenge(a: int, b: int, ans: string)

  /** `Math.floor(2 + r * 7)` for a draw `r` in [0, 1). */
  function Operand(r: real): (n: int)
    requires 0.0 <= r < 1.0
    ensures 2 <= n <= 8
  {
    (2.0 + r * 7.0).Floor
  }

  /** The challenge built from two draws. */
  function MakeChallenge(ra: real, rb: real): (c: Challenge)
    requires 0.0 <= ra < 1.0 && 0.0 <= rb < 1.0
    ensures 2 <= c.a <= 8 && 2 <= c.b <= 8
  {
    var a := Operand(ra);
    var b := Operand(rb);
    Challenge(a, b, NatToString(a + b))
  }

  /** The answer is the decimal numeral of `a + b`: one or two digits, no leading zero. */
  lemma ChallengeAnswer(ra: real, rb: real)
    requires 0.0 <= ra < 1.0 && 0.0 <= rb < 1.0
    ensures var c := MakeChallenge(ra, rb);
      && 1 <= |c.ans| <= 2
      && (forall k :: 0 <= k < |c.ans| ==> IsDigit(c.ans[k]))
      && DigitsValue(c.ans) == c.a + c.b
  {
    var c := MakeChallenge(ra, rb);
    NatToStringIsNumeral(c.a + c.b);
    if c.a + c.b >= 10 {
      assert NatToString(c.a + c.b) == NatToString((c.a + c.b) / 10) + [DigitChar((c.a + c.b) % 10)];
    }
  }

  /** Only the numeral of the sum is accepted: any accepted answer denotes `a + b`. */
  lemma {:induction false} AcceptedAnswerIsSum(ra: real, rb: real, val: string)
    requires 0.0 <= ra < 1.0 && 0.0 <= rb < 1.0
    requires Trim(val) == MakeChallenge(ra, rb).ans
    ensures forall n: nat :: Trim(val) == NatToString(n) <==> n == MakeChallenge(ra, rb).a + MakeChallenge(ra, rb).b
  {
    var c := MakeChallenge(ra, rb);
    forall n: nat | Trim(val) == NatToString(n) ensures n == c.a + c.b {
      NatToStringInjective(n, c.a + c.b);
    }
  }

  /** The patch a passed check writes at time `now`. */
  function PassPatch(now: int): map<string, Value> {
    map[RobotOkKey := Bool(true), RobotTimestampKey := Num(now as real)]
  }

  /**
   * `submit()`: with the box checked and the trimmed input equal to the
   * answer, the pass is stored and `onOk` is called (`passed`); otherwise
   * nothing is written.
   */
  method Submit(ls: LocalStorage, checked: bool, val: string, c: Challenge, now: int) returns (passed: bool)
    modifies ls
    ensures passed == (checked && Trim(val) == c.ans)
    ensures passed ==> ls.items == Written(old(ls.items), PassPatch(now))
    ensures !passed ==> ls.items == old(ls.items)
  {
    passed := false;
    if checked && Trim(val) == c.ans {
      var _ := WriteStore(ls, PassPatch(now));
      passed := true;
    }
  }

  /** After a passed check, `robotOk()` holds. */
  lemma RobotOkAfterPass(items: map<string, Raw>, now: int)
    ensures RobotOk(Written(items, PassPatch(now)))
  {
    ReadAfterWrite(items, PassPatch(now));
  }
}
