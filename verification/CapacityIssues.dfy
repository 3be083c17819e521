/**
 Spotting capacity failures among an ASG's scaling activities
 (pkg/spotguard/spotguard.go, checkForCapacityIssues with its own toLower, contains, indexOf).
 A string is a sequence of bytes, one char each.
 */
module CapacityIssues {

  function LowerChar(c: char): char {
    if 'A' <= c <= 'Z' then (c as int + ('a' as int - 'A' as int)) as char else c
  }

  /** Bytewise, ASCII letters only. */
  method ToLower(s: string) returns (r: string)
    ensures |r| == |s| && forall i | 0 <= i < |s| :: r[i] == LowerChar(s[i])
  {
    var result := new char[|s|];
    for i := 0 to |s|
      invariant forall k | 0 <= k < i :: result[k] == LowerChar(s[k])
    {
      result[i] := LowerChar(s[i]);
    }
    r := result[..];
  }

  /** `sub` stands in `s` at position i. */
  predicate OccursAt(s: string, sub: string, i: int) { 0 <= i <= |s| - |sub| && s[i..i + |sub|] == sub }

  ghost predicate Occurs(s: string, sub: string) { exists i :: OccursAt(s, sub, i) }

  method IndexOf(s: string, sub: string) returns (index: int)
    ensures index >= 0 ==> OccursAt(s, sub, index) && forall k | 0 <= k < index :: !OccursAt(s, sub, k)
    ensures index < 0 ==> index == -1 && !Occurs(s, sub)
  {
    var i := 0;
    while i <= |s| - |sub|
      invariant 0 <= i && forall k | 0 <= k < i :: !OccursAt(s, sub, k)
    {
      if s[i..i + |sub|] == sub {
        return i;
      }
      i := i + 1;
    }
    index := -1;
  }

  /** The shortcuts for equality, prefix and suffix change nothing: this is substring. */
  method Contains(s: string, sub: string) returns (yes: bool)
    ensures yes <==> Occurs(s, sub)
  {
    if |s| < |sub| {
      return false;
    }
    if s == sub {
      assert OccursAt(s, sub, 0);
      return true;
    }
    if |s| == |sub| {
      assert s[0..|s|] == s;
      return false;
    }
    if s[..|sub|] == sub {
      assert OccursAt(s, sub, 0);
      return true;
    }
    if s[|s| - |sub|..] == sub {
      assert OccursAt(s, sub, |s| - |sub|);
      return true;
    }
    var index := IndexOf(s, sub);
    yes := index >= 0;
  }

  datatype Activity = Activity(startTime: int, statusCode: string, description: string, cause: string)

  const KEYWORDS: seq<string> := [
    "InsufficientInstanceCapacity",
    "Insufficient capacity",
    "capacity-not-available",
    "Max spot instance count exceeded",
    "Spot request could not be fulfilled",
    "UnfulfillableCapacity "]

  const SKEW: int := 5_000_000_000

  /** `keyword` occurs in `text` at i once both are read without regard to ASCII case. */
  ghost predicate MentionsAt(text: string, keyword: string, i: int) {
    0 <= i <= |text| - |keyword|
    && forall k | 0 <= k < |keyword| :: LowerChar(text[i + k]) == LowerChar(keyword[k])
  }

  ghost predicate Mentions(text: string, keyword: string) { exists i :: MentionsAt(text, keyword, i) }

  lemma LoweredOccursAt(text: string, keyword: string, t: string, w: string, i: int)
    requires |t| == |text| && forall k | 0 <= k < |text| :: t[k] == LowerChar(text[k])
    requires |w| == |keyword| && forall k | 0 <= k < |keyword| :: w[k] == LowerChar(keyword[k])
    ensures OccursAt(t, w, i) <==> MentionsAt(text, keyword, i)
  {
    if OccursAt(t, w, i) {
      forall k | 0 <= k < |keyword| ensures LowerChar(text[i + k]) == LowerChar(keyword[k]) {
        assert t[i..i + |w|][k] == w[k];
      }
    }
  }

  lemma LoweredOccurs(text: string, keyword: string, t: string, w: string)
    requires |t| == |text| && forall k | 0 <= k < |text| :: t[k] == LowerChar(text[k])
    requires |w| == |keyword| && forall k | 0 <= k < |keyword| :: w[k] == LowerChar(keyword[k])
    ensures Occurs(t, w) <==> Mentions(text, keyword)
  {
    forall i ensures OccursAt(t, w, i) <==> MentionsAt(text, keyword, i) {
      LoweredOccursAt(text, keyword, t, w, i);
    }
  }

  ghost predicate NamesKeyword(a: Activity) {
    exists k :: 0 <= k < |KEYWORDS| && (Mentions(a.description, KEYWORDS[k]) || Mentions(a.cause, KEYWORDS[k]))
  }

  /** A failure no older than five seconds before the scale request that names a capacity keyword. */
  ghost predicate IsCapacityIssue(a: Activity, scaleStart: int) {
    && a.startTime >= scaleStart - SKEW
    && (a.statusCode == "Failed" || a.statusCode == "Cancelled")
    && NamesKeyword(a)
  }

  method MatchesKeyword(a: Activity) returns (yes: bool)
    ensures yes <==> NamesKeyword(a)
  {
    var description := ToLower(a.description);
    var cause := ToLower(a.cause);
    for k := 0 to |KEYWORDS|
      invariant forall h | 0 <= h < k :: !Mentions(a.description, KEYWORDS[h]) && !Mentions(a.cause, KEYWORDS[h])
    {
      var keyword := ToLower(KEYWORDS[k]);
      LoweredOccurs(a.description, KEYWORDS[k], description, keyword);
      LoweredOccurs(a.cause, KEYWORDS[k], cause, keyword);
      var inDescription := Contains(description, keyword);
      var inCause := Contains(cause, keyword);
      if inDescription || inCause {
        return true;
      }
    }
    yes := false;
  }

  /** Reported exactly when some recent activity is a capacity issue. */
  method CheckForCapacityIssues(activities: seq<Activity>, scaleStart: int) returns (found: bool)
    ensures found <==> exists i :: 0 <= i < |activities| && IsCapacityIssue(activities[i], scaleStart)
  {
    var cutoff := scaleStart - SKEW;
    for i := 0 to |activities|
      invariant forall k | 0 <= k < i :: !IsCapacityIssue(activities[k], scaleStart)
    {
      var a := activities[i];
      if a.startTime < cutoff {
        continue;
      }
      if a.statusCode == "Failed" || a.statusCode == "Cancelled" {
        var matches := MatchesKeyword(a);
        if matches {
          assert IsCapacityIssue(activities[i], scaleStart);
          return true;
        }
      }
    }
    found := false;
  }

  // ---- what `contains` does not do

  predicate IsLetter(c: char) { 'A' <= c <= 'Z' || 'a' <= c <= 'z' }

  function FlipCase(c: char): char
    requires IsLetter(c)
  {
    if c <= 'Z' then (c as int + 32) as char else (c as int - 32) as char
  }

  ghost predicate IgnoresCase(sub: string) { forall s :: Occurs(s, sub) <==> Mentions(s, sub) }

  /** Without letters the two readings look for the same characters at the same place. */
  lemma NoLettersSame(s: string, sub: string, i: int)
    requires forall k | 0 <= k < |sub| :: !IsLetter(sub[k])
    ensures OccursAt(s, sub, i) <==> MentionsAt(s, sub, i)
  {
    if OccursAt(s, sub, i) {
      forall k | 0 <= k < |sub| ensures s[i + k] == sub[k] {
        assert s[i..i + |sub|][k] == sub[k];
      }
    }
    if MentionsAt(s, sub, i) {
      assert s[i..i + |sub|] == sub;
    }
  }

  /** One letter in the other case: found when case is ignored, not found by `contains`. */
  lemma FlippedIsMissed(sub: string, k: nat) returns (s: string)
    requires k < |sub| && IsLetter(sub[k])
    ensures Mentions(s, sub) && !Occurs(s, sub)
  {
    s := sub[k := FlipCase(sub[k])];
    assert MentionsAt(s, sub, 0);
    assert s[0..|s|] == s && s[k] != sub[k];
    assert forall i | OccursAt(s, sub, i) :: i == 0;
  }

  /** `contains` ignores case, as its comment says, exactly for what has no ASCII letter in it. */
  lemma ContainsIgnoresCaseIff(sub: string)
    ensures IgnoresCase(sub) <==> forall k | 0 <= k < |sub| :: !IsLetter(sub[k])
  {
    if forall k | 0 <= k < |sub| :: !IsLetter(sub[k]) {
      forall s ensures Occurs(s, sub) <==> Mentions(s, sub) {
        forall i ensures OccursAt(s, sub, i) <==> MentionsAt(s, sub, i) {
          NoLettersSame(s, sub, i);
        }
      }
    } else {
      var k :| 0 <= k < |sub| && IsLetter(sub[k]);
      var s := FlippedIsMissed(sub, k);
    }
  }

  /** So a throttling error spelt otherwise is not taken for one. */
  lemma ThrottlingIsMissed()
    ensures Mentions("throttling", "Throttling") && !Occurs("throttling", "Throttling")
  {
    assert MentionsAt("throttling", "Throttling", 0);
    assert forall i | OccursAt("throttling", "Throttling", i) :: i == 0;
    assert "throttling"[0..10] == "throttling" && "throttling"[0] != "Throttling"[0];
  }
}
