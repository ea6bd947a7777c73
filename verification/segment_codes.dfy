/**
 * The segment code tables of collector/segment_utils.go: the single-letter
 * codes of gp_segment_configuration turned into gauge values, looked up after
 * lower-casing, with a default for unknown codes.
 */
module SegmentCodes {

  /** strings.ToLower on one character, for the ASCII letters. */
  function LowerChar(c: char): char
  {
    if 'A' <= c <= 'Z' then (c as int + 32) as char else c
  }

  function Lower(s: string): (r: string)
    ensures |r| == |s|
    ensures forall i :: 0 <= i < |s| ==> r[i] == LowerChar(s[i])
  {
    seq(|s|, i requires 0 <= i < |s| => LowerChar(s[i]))
  }

  lemma LowerIdempotent(s: string)
    ensures Lower(Lower(s)) == Lower(s)
  {
    assert forall i :: 0 <= i < |s| ==> LowerChar(LowerChar(s[i])) == LowerChar(s[i]);
  }

  /** sgStatus: 1 is up, 0 is down. */
  const SgStatus: map<string, real> := map["u" := 1.0, "d" := 0.0]
  /** sgMode: synchronized, resyncing, change logging, not synchronized. */
  const SgMode: map<string, real> := map["s" := 1.0, "r" := 2.0, "c" := 3.0, "n" := 4.0]
  /** sgRole: 1 is primary, 2 is mirror. */
  const SgRole: map<string, real> := map["p" := 1.0, "m" := 2.0]

  /** Looks the lower-cased code up in a table, falling back to a default. */
  function Lookup(table: map<string, real>, code: string, default: real): real
  {
    var key := Lower(code);
    if key in table then table[key] else default
  }

  /** getRole: unknown roles count as mirror. */
  function GetRole(role: string): (r: real)
    ensures r == 1.0 || r == 2.0
  {
    Lookup(SgRole, role, 2.0)
  }

  /** getMode: unknown modes count as not synchronized. */
  function GetMode(mode: string): (r: real)
    ensures 1.0 <= r <= 4.0
  {
    Lookup(SgMode, mode, 4.0)
  }

  /** getStatus: unknown statuses count as down. */
  function GetStatus(status: string): (r: real)
    ensures r == 0.0 || r == 1.0
  {
    Lookup(SgStatus, status, 0.0)
  }

  /** getRole against an explicit decision table: "p" in any case is primary, everything else mirror. */
  lemma RoleTable(role: string)
    ensures GetRole(role) == if Lower(role) == "p" then 1.0 else 2.0
  {
  }

  /** getMode against an explicit decision table; anything but s, r, c is 4. */
  lemma ModeTable(mode: string)
    ensures GetMode(mode) ==
      if Lower(mode) == "s" then 1.0
      else if Lower(mode) == "r" then 2.0
      else if Lower(mode) == "c" then 3.0
      else 4.0
  {
  }

  /** getStatus against an explicit decision table: "u" in any case is up, everything else down. */
  lemma StatusTable(status: string)
    ensures GetStatus(status) == if Lower(status) == "u" then 1.0 else 0.0
  {
  }

  /** Each lookup ignores case: a code and its lower-cased form map to the same value. */
  lemma CaseInsensitive(s: string)
    ensures GetRole(s) == GetRole(Lower(s))
    ensures GetMode(s) == GetMode(Lower(s))
    ensures GetStatus(s) == GetStatus(Lower(s))
  {
    LowerIdempotent(s);
  }

  /** An upper-case code is read like its lower-case one: "P" is a primary, "U" is up, "C" is change logging. */
  lemma UpperCaseCodes()
    ensures GetRole("P") == 1.0 && GetStatus("U") == 1.0 && GetMode("C") == 3.0
  {
    assert Lower("P") == "p";
    assert Lower("U") == "u";
    assert Lower("C") == "c";
  }
}
