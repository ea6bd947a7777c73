/**
 * combineErr (collector/error.go): folds the messages of the non-nil errors
 * into one error, separated by "; ".
 */
module Errors {
  import opened Samples

  /** The messages of the non-nil errors, in argument order. */
  function Messages(errs: seq<Error>): (ms: seq<string>)
    ensures |ms| <= |errs|
  {
    if errs == [] then []
    else Messages(errs[..|errs| - 1]) + (match errs[|errs| - 1] case None => [] case Some(m) => [m])
  }

  /** The list without the empty messages that come before its first non-empty one. */
  function DropLeadingEmpty(ms: seq<string>): (r: seq<string>)
    ensures r == [] || r[0] != ""
  {
    if ms == [] || ms[0] != "" then ms else DropLeadingEmpty(ms[1..])
  }

  /** The messages with "; " between neighbours. */
  function Join(ms: seq<string>): string
  {
    if ms == [] then ""
    else if |ms| == 1 then ms[0]
    else Join(ms[..|ms| - 1]) + "; " + ms[|ms| - 1]
  }

  /**
   * The specification of combineErr: empty messages seen while nothing has
   * been written yet add nothing; every later message is appended after a
   * "; " separator; an empty accumulation means nil.
   */
  function Combined(errs: seq<Error>): Error
  {
    var s := Join(DropLeadingEmpty(Messages(errs)));
    if s == "" then None else Some(s)
  }

  /** combineErr, the loop over the arguments appending to errStr. */
  method CombineErr(errs: seq<Error>) returns (err: Error)
    ensures err == Combined(errs)
  {
    var errStr := "";
    for i := 0 to |errs|
      invariant errStr == Join(DropLeadingEmpty(Messages(errs[..i])))
    {
      assert errs[..i + 1][..i] == errs[..i];
      match errs[i] {
        case Some(m) =>
          assert Messages(errs[..i + 1]) == Messages(errs[..i]) + [m];
          AccumulateStep(Messages(errs[..i]), m);
          if errStr == "" {
            errStr := errStr + m;
          } else {
            errStr := errStr + "; " + m;
          }
        case None =>
          assert Messages(errs[..i + 1]) == Messages(errs[..i]);
      }
    }
    assert errs[..|errs|] == errs;
    if errStr == "" {
      err := None;
    } else {
      err := Some(errStr);
    }
  }

  lemma {:induction false} JoinStartsWithFirst(ms: seq<string>)
    requires ms != []
    ensures |Join(ms)| >= |ms[0]|
  {
    if |ms| > 1 {
      JoinStartsWithFirst(ms[..|ms| - 1]);
    }
  }

  /** Join(ms) is empty exactly when nothing is left after dropping the leading empty messages. */
  lemma JoinEmptyIff(ms: seq<string>)
    requires ms == [] || ms[0] != ""
    ensures Join(ms) == "" <==> ms == []
  {
    if ms != [] {
      JoinStartsWithFirst(ms);
    }
  }

  lemma {:induction false} DropLeadingEmptySnoc(ms: seq<string>, m: string)
    ensures DropLeadingEmpty(ms + [m]) ==
      if DropLeadingEmpty(ms) == [] then (if m == "" then [] else [m]) else DropLeadingEmpty(ms) + [m]
  {
    if ms == [] {
      assert ms + [m] == [m];
      if m == "" {
        assert [m][1..] == [];
      }
    } else if ms[0] != "" {
    } else {
      assert (ms + [m])[1..] == ms[1..] + [m];
      DropLeadingEmptySnoc(ms[1..], m);
    }
  }

  /** One iteration of combineErr's loop, on the specification. */
  lemma AccumulateStep(ms: seq<string>, m: string)
    ensures Join(DropLeadingEmpty(ms + [m])) ==
      (var acc := Join(DropLeadingEmpty(ms)); if acc == "" then acc + m else acc + "; " + m)
  {
    var d := DropLeadingEmpty(ms);
    DropLeadingEmptySnoc(ms, m);
    JoinEmptyIff(d);
    if d != [] {
      assert (d + [m])[..|d + [m]| - 1] == d;
    }
  }

  lemma {:induction false} MessagesOfNils(errs: seq<Error>)
    requires forall i :: 0 <= i < |errs| ==> errs[i].None?
    ensures Messages(errs) == []
  {
    if errs != [] {
      MessagesOfNils(errs[..|errs| - 1]);
    }
  }

  /** combineErr of nothing but nil errors is nil. */
  lemma AllNilCombinesToNil(errs: seq<Error>)
    requires forall i :: 0 <= i < |errs| ==> errs[i].None?
    ensures Combined(errs) == None
  {
    MessagesOfNils(errs);
  }

  /** Adding one more argument: the fold step of combineErr, stated on the result error. */
  lemma CombinedSnoc(errs: seq<Error>, e: Error)
    ensures Combined(errs + [e]) ==
      match e
      case None => Combined(errs)
      case Some(m) =>
        match Combined(errs)
        case None => if m == "" then None else Some(m)
        case Some(acc) => Some(acc + "; " + m)
  {
    assert (errs + [e])[..|errs + [e]| - 1] == errs;
    var ms := Messages(errs);
    match e {
      case None =>
        assert Messages(errs + [e]) == ms;
      case Some(m) =>
        assert Messages(errs + [e]) == ms + [m];
        AccumulateStep(ms, m);
        var acc := Join(DropLeadingEmpty(ms));
        if acc == "" {
          assert acc + m == m;
        } else {
          assert |acc + "; " + m| > 0;
        }
    }
  }

  /** An argument that adds nothing while the accumulator is still empty: nil, or an empty message. */
  predicate Silent(e: Error)
  {
    e.None? || e.value == ""
  }

  /** The result is nil exactly when every argument is nil or carries an empty message. */
  lemma {:induction false} CombinedNilIff(errs: seq<Error>)
    ensures Combined(errs) == None <==> forall i :: 0 <= i < |errs| ==> Silent(errs[i])
  {
    if errs != [] {
      var init := errs[..|errs| - 1];
      var e := errs[|errs| - 1];
      assert init + [e] == errs;
      CombinedNilIff(init);
      CombinedSnoc(init, e);
      assert (forall i :: 0 <= i < |errs| ==> Silent(errs[i])) <==>
        (forall i :: 0 <= i < |init| ==> Silent(init[i])) && Silent(e);
    }
  }

  /** When no non-nil error has an empty message, the result is exactly their messages joined by "; ". */
  lemma {:induction false} CombinedJoinsMessages(errs: seq<Error>)
    requires forall i :: 0 <= i < |errs| ==> errs[i].None? || errs[i].value != ""
    ensures Combined(errs) == if Messages(errs) == [] then None else Some(Join(Messages(errs)))
  {
    if errs != [] {
      var init := errs[..|errs| - 1];
      var e := errs[|errs| - 1];
      assert init + [e] == errs;
      assert forall i :: 0 <= i < |init| ==> init[i] == errs[i];
      CombinedJoinsMessages(init);
      CombinedSnoc(init, e);
      match e {
        case None =>
          assert Messages(errs) == Messages(init);
        case Some(m) =>
          assert Messages(errs) == Messages(init) + [m];
          var ms := Messages(init);
          if ms != [] {
            assert (ms + [m])[..|ms + [m]| - 1] == ms;
          }
      }
    }
  }

  /** A single non-nil error with a non-empty message comes back with exactly that message. */
  lemma SingleErrorKept(errs: seq<Error>, k: nat, m: string)
    requires k < |errs| && errs[k] == Some(m) && m != ""
    requires forall i :: 0 <= i < |errs| && i != k ==> errs[i].None?
    ensures Combined(errs) == Some(m)
  {
    assert errs == errs[..k] + [Some(m)] + errs[k + 1..];
    CombinedJoinsMessages(errs);
    MessagesOfNils(errs[..k]);
    MessagesSplit(errs[..k], Some(m), errs[k + 1..]);
    MessagesOfNils(errs[k + 1..]);
  }

  lemma {:induction false} MessagesAppend(a: seq<Error>, b: seq<Error>)
    ensures Messages(a + b) == Messages(a) + Messages(b)
  {
    if b == [] {
      assert a + b == a;
    } else {
      assert (a + b)[..|a + b| - 1] == a + b[..|b| - 1];
      MessagesAppend(a, b[..|b| - 1]);
    }
  }

  lemma MessagesSplit(a: seq<Error>, e: Error, b: seq<Error>)
    ensures Messages(a + [e] + b) == Messages(a) + Messages([e]) + Messages(b)
  {
    MessagesAppend(a + [e], b);
    MessagesAppend(a, [e]);
  }

  /** An empty message that comes after a non-empty one still adds a "; " separator. */
  lemma EmptyAfterNonEmptyAddsSeparator(errs: seq<Error>, acc: string)
    requires Combined(errs) == Some(acc)
    ensures Combined(errs + [Some("")]) == Some(acc + "; ")
  {
    CombinedSnoc(errs, Some(""));
    assert acc + "; " + "" == acc + "; ";
  }

  /**
   * combineErr of two arguments, as segment.go and connections_detail.go call
   * it: a silent first argument leaves the second (or nil when that is silent
   * too); otherwise the second, when non-nil, follows after "; ".
   */
  lemma CombinedPair(a: Error, b: Error)
    ensures Combined([a, b]) ==
      if Silent(a) then (if Silent(b) then None else b)
      else if b.None? then a
      else Some(a.value + "; " + b.value)
  {
    assert Combined([]) == None;
    CombinedSnoc([], a);
    assert [] + [a] == [a];
    CombinedSnoc([a], b);
    assert [a] + [b] == [a, b];
  }
}
