/**
 * Offense categories: their precedence (the `typeHierarchy` rank), the blacklist
 * status an observed category implies, and the translation of a server's
 * category into the category of the users seen in its chat.
 */
module Categories {
  import opened Wrappers

  /** Categories from least to most severe; a category's rank is its position. */
  const TypeHierarchy: seq<string> := ["OTHER", "LEAKER", "CHEATER", "SUPPORTER", "OWNER"]

  /** `Array.prototype.indexOf` on strings: the first position holding `x`, or -1. */
  function IndexOf(s: seq<string>, x: string): (r: int)
    ensures -1 <= r < |s|
    ensures r == -1 <==> x !in s
    ensures 0 <= r ==> s[r] == x && x !in s[..r]
  {
    if s == [] then -1
    else if s[0] == x then 0
    else
      var k := IndexOf(s[1..], x);
      assert 0 <= k ==> s[..k + 1] == [s[0]] + s[1..][..k];
      if k == -1 then -1 else k + 1
  }

  /**
   * The severity of a category: its position in TypeHierarchy, and -1 for an
   * unknown category, below every known one (RankIsIndexOf).
   */
  function Rank(t: string): (r: int)
    ensures -1 <= r < |TypeHierarchy|
  {
    if t == "OTHER" then 0
    else if t == "LEAKER" then 1
    else if t == "CHEATER" then 2
    else if t == "SUPPORTER" then 3
    else if t == "OWNER" then 4
    else -1
  }

  /** The rank is `typeHierarchy.indexOf(t)`: -1 exactly for an unknown category, else its position. */
  lemma RankIsIndexOf(t: string)
    ensures Rank(t) == IndexOf(TypeHierarchy, t)
    ensures Rank(t) == -1 <==> t !in TypeHierarchy
    ensures 0 <= Rank(t) ==> TypeHierarchy[Rank(t)] == t
  {
    var k := IndexOf(TypeHierarchy, t);
    if 0 <= k {
      assert TypeHierarchy[k] == t;
    }
  }

  /** Each known category ranks at its own position, so the ranks are 0 to 4 in order. */
  lemma RankIsPosition(i: int)
    requires 0 <= i < |TypeHierarchy|
    ensures Rank(TypeHierarchy[i]) == i
  {
  }

  /** Two categories of equal, defined rank are the same category. */
  lemma RankInjective(a: string, b: string)
    requires 0 <= Rank(a) && Rank(a) == Rank(b)
    ensures a == b
  {
    RankIsIndexOf(a);
    RankIsIndexOf(b);
  }

  /** The blacklist status of a user row. */
  datatype Status = NoStatus | Blacklisted | PermBlacklisted | Whitelisted

  /** The categories that blacklist permanently. */
  predicate IsPermanentType(t: string)
  {
    t == "SUPPORTER" || t == "OWNER"
  }

  /**
   * The status written for an observation of category `t` on a user whose stored
   * status is `current` (None for a user not yet stored): permanent for a
   * supporter or owner, and permanent once stored as permanent.
   */
  function DeriveStatus(t: string, current: Option<Status>): (s: Status)
    ensures s == PermBlacklisted <==> IsPermanentType(t) || current == Some(PermBlacklisted)
    ensures s == Blacklisted <==> !(IsPermanentType(t) || current == Some(PermBlacklisted))
  {
    var status := if IsPermanentType(t) then PermBlacklisted else Blacklisted;
    if current == Some(PermBlacklisted) then PermBlacklisted else status
  }

  /** The user category given to chat participants of a server of category `t`. */
  function ConvertServerType(t: string): (r: string)
    ensures r in TypeHierarchy || r == t
  {
    if t == "CHEATING" then "CHEATER"
    else if t == "RESELLING" || t == "ADVERTISING" || t == "OTHER" then "OTHER"
    else if t == "LEAKING" then "LEAKER"
    else t
  }

  /** The translation applied element by element, as `Array.prototype.map` does. */
  function ConvertServersTypeToUsersType(ts: seq<string>): (r: seq<string>)
    ensures |r| == |ts|
    ensures forall i :: 0 <= i < |ts| ==> r[i] == ConvertServerType(ts[i])
  {
    if ts == [] then [] else [ConvertServerType(ts[0])] + ConvertServersTypeToUsersType(ts[1..])
  }

  /** The translation table: the server categories and where they land; all else is kept. */
  lemma ConvertServerTypeTable(t: string)
    ensures t == "CHEATING" ==> ConvertServerType(t) == "CHEATER"
    ensures t in {"RESELLING", "ADVERTISING", "OTHER"} ==> ConvertServerType(t) == "OTHER"
    ensures t == "LEAKING" ==> ConvertServerType(t) == "LEAKER"
    ensures t !in {"CHEATING", "RESELLING", "ADVERTISING", "OTHER", "LEAKING"} ==> ConvertServerType(t) == t
  {
  }

  /** A user category is left as it is, so translating twice is translating once. */
  lemma ConvertServerTypeIdempotent(t: string)
    ensures t in TypeHierarchy ==> ConvertServerType(t) == t
    ensures ConvertServerType(ConvertServerType(t)) == ConvertServerType(t)
  {
  }
}
