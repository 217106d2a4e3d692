/**
 * The channel router: a decision table from (importance, context, preferences) to the
 * ordered list of channels a notification is delivered on.
 */
module Router {
  import opened Wrappers
  import opened Models

  /** True only for the literal tag "opt-in"; an absent context never matches. */
  predicate IsOptIn(context: Option<string>)
  {
    context == Some(OptIn)
  }

  /**
   * The channels an importance level may use, in the order the router lists them. Every
   * importance other than high and normal takes the low row.
   */
  function Candidates(importance: Importance, context: Option<string>): (cs: seq<Channel>)
    ensures NoDuplicates(cs) && 1 <= |cs| <= 3
  {
    match importance
    case High => [Sms, Email, InApp]
    case Normal => [Email, InApp]
    case _ => if IsOptIn(context) then [InApp, Email, Sms] else [InApp]
  }

  /** The candidates that the preference list contains, in candidate order. */
  function KeepPreferred(cs: seq<Channel>, prefs: seq<Channel>): (r: seq<Channel>)
    ensures |r| <= |cs|
  {
    if cs == [] then []
    else (if cs[0] in prefs then [cs[0]] else []) + KeepPreferred(cs[1..], prefs)
  }

  /** The router's result, as a filter of the candidate row by preference membership. */
  function Route(importance: Importance, context: Option<string>, prefs: seq<Channel>): seq<Channel>
  {
    KeepPreferred(Candidates(importance, context), prefs)
  }

  predicate NoDuplicates(s: seq<Channel>)
  {
    forall i, j :: 0 <= i < j < |s| ==> s[i] != s[j]
  }

  /** Position of the first occurrence of `c` in `cs`. */
  function IndexOf(cs: seq<Channel>, c: Channel): (k: nat)
    requires c in cs
    ensures k < |cs| && cs[k] == c
  {
    if cs[0] == c then 0 else 1 + IndexOf(cs[1..], c)
  }

  /** Every element of `r` occurs in `cs`, and `r` lists them in the order `cs` does. */
  predicate InOrderOf(r: seq<Channel>, cs: seq<Channel>)
  {
    && (forall i :: 0 <= i < |r| ==> r[i] in cs)
    && (forall i, j :: 0 <= i < j < |r| ==> IndexOf(cs, r[i]) < IndexOf(cs, r[j]))
  }

  /**
   * The routine itself: starts from an empty list and pushes each channel whose guard
   * holds, one `includes` test per push.
   */
  method RouteNotification(importance: Importance, context: Option<string>, userPref: UserPreference)
    returns (channels: seq<Channel>)
    ensures channels == Route(importance, context, userPref.preferredChannels)
  {
    var prefs := userPref.preferredChannels;
    channels := [];
    if importance == High {
      if Sms in prefs { channels := channels + [Sms]; }
      if Email in prefs { channels := channels + [Email]; }
      if InApp in prefs { channels := channels + [InApp]; }
      RouteHigh(context, prefs);
    } else if importance == Normal {
      if Email in prefs { channels := channels + [Email]; }
      if InApp in prefs { channels := channels + [InApp]; }
      RouteNormal(context, prefs);
    } else {
      if InApp in prefs { channels := channels + [InApp]; }
      if Email in prefs && context == Some(OptIn) { channels := channels + [Email]; }
      if Sms in prefs && context == Some(OptIn) { channels := channels + [Sms]; }
      RouteLow(importance, context, prefs);
    }
  }

  // ---------------------------------------------------------------------------------------
  // The decision table, row by row

  /** High: sms, then email, then in-app, each only when preferred. */
  lemma RouteHigh(context: Option<string>, prefs: seq<Channel>)
    ensures Route(High, context, prefs)
         == (if Sms in prefs then [Sms] else [])
          + (if Email in prefs then [Email] else [])
          + (if InApp in prefs then [InApp] else [])
  {
    Unfold3(Sms, Email, InApp, prefs);
  }

  /** Normal: email, then in-app, each only when preferred; never sms. */
  lemma RouteNormal(context: Option<string>, prefs: seq<Channel>)
    ensures Route(Normal, context, prefs)
         == (if Email in prefs then [Email] else [])
          + (if InApp in prefs then [InApp] else [])
    ensures Sms !in Route(Normal, context, prefs)
  {
    Unfold2(Email, InApp, prefs);
  }

  /**
   * Low, and every importance that is neither high nor normal: in-app when preferred, then
   * email and sms only under the opt-in tag and when preferred.
   */
  lemma RouteLow(importance: Importance, context: Option<string>, prefs: seq<Channel>)
    requires importance != High && importance != Normal
    ensures Route(importance, context, prefs)
         == (if InApp in prefs then [InApp] else [])
          + (if Email in prefs && IsOptIn(context) then [Email] else [])
          + (if Sms in prefs && IsOptIn(context) then [Sms] else [])
  {
    if IsOptIn(context) {
      Unfold3(InApp, Email, Sms, prefs);
    } else {
      Unfold1(InApp, prefs);
    }
  }

  /** An importance outside the union is routed exactly as low is. */
  lemma RouteFallthrough(importance: Importance, context: Option<string>, prefs: seq<Channel>)
    requires importance != High && importance != Normal
    ensures Route(importance, context, prefs) == Route(Low, context, prefs)
  {
  }

  lemma Unfold1(a: Channel, prefs: seq<Channel>)
    ensures KeepPreferred([a], prefs) == (if a in prefs then [a] else [])
  {
    assert [a][1..] == [];
  }

  lemma Unfold2(a: Channel, b: Channel, prefs: seq<Channel>)
    ensures KeepPreferred([a, b], prefs)
         == (if a in prefs then [a] else []) + (if b in prefs then [b] else [])
  {
    assert [a, b][1..] == [b];
    Unfold1(b, prefs);
  }

  lemma Unfold3(a: Channel, b: Channel, c: Channel, prefs: seq<Channel>)
    ensures KeepPreferred([a, b, c], prefs)
         == (if a in prefs then [a] else []) + (if b in prefs then [b] else []) + (if c in prefs then [c] else [])
  {
    assert [a, b, c][1..] == [b, c];
    Unfold2(b, c, prefs);
  }

  // ---------------------------------------------------------------------------------------
  // Properties of the filter

  lemma {:induction false} KeepPreferredMembers(cs: seq<Channel>, prefs: seq<Channel>)
    ensures forall c :: c in KeepPreferred(cs, prefs) <==> c in cs && c in prefs
  {
    if cs != [] {
      KeepPreferredMembers(cs[1..], prefs);
      assert cs == [cs[0]] + cs[1..];
    }
  }

  /** A channel other than the head sits one place later in the row than in its tail. */
  lemma IndexOfTail(cs: seq<Channel>, c: Channel)
    requires c in cs && c != cs[0]
    ensures c in cs[1..] && IndexOf(cs, c) == 1 + IndexOf(cs[1..], c)
  {
    assert cs == [cs[0]] + cs[1..];
  }

  lemma TailMember(cs: seq<Channel>, c: Channel)
    requires NoDuplicates(cs) && cs != [] && c in cs[1..]
    ensures c in cs && c != cs[0]
  {
    var k :| 0 <= k < |cs| - 1 && cs[1..][k] == c;
    assert cs[k + 1] == c;
  }

  /** A list in the tail's order is also in the whole row's order. */
  lemma InOrderLift(r: seq<Channel>, cs: seq<Channel>)
    requires NoDuplicates(cs) && cs != []
    requires InOrderOf(r, cs[1..])
    ensures InOrderOf(r, cs) && cs[0] !in r
  {
    forall i | 0 <= i < |r| ensures r[i] in cs && r[i] != cs[0] && IndexOf(cs, r[i]) == 1 + IndexOf(cs[1..], r[i]) {
      TailMember(cs, r[i]);
      IndexOfTail(cs, r[i]);
    }
  }

  /** Putting the row's head in front of a list in the tail's order keeps the row's order. */
  lemma InOrderCons(r: seq<Channel>, cs: seq<Channel>)
    requires NoDuplicates(cs) && cs != []
    requires InOrderOf(r, cs[1..])
    ensures InOrderOf([cs[0]] + r, cs)
  {
    InOrderLift(r, cs);
    var s := [cs[0]] + r;
    forall i | 0 < i < |s| ensures s[i] == r[i - 1] && IndexOf(cs, s[i]) > 0 {
      IndexOfTail(cs, r[i - 1]);
    }
  }

  lemma {:induction false} KeepPreferredOrdered(cs: seq<Channel>, prefs: seq<Channel>)
    requires NoDuplicates(cs)
    ensures InOrderOf(KeepPreferred(cs, prefs), cs)
  {
    if cs != [] {
      var rest := KeepPreferred(cs[1..], prefs);
      assert NoDuplicates(cs[1..]) by {
        forall i, j | 0 <= i < j < |cs| - 1 ensures cs[1..][i] != cs[1..][j] {
          assert cs[1..][i] == cs[i + 1] && cs[1..][j] == cs[j + 1];
        }
      }
      KeepPreferredOrdered(cs[1..], prefs);
      if cs[0] in prefs {
        InOrderCons(rest, cs);
      } else {
        InOrderLift(rest, cs);
      }
    }
  }

  /** Dropping the head of a list that starts with the row's head leaves a list in the tail's order. */
  lemma InOrderTail(r: seq<Channel>, cs: seq<Channel>)
    requires NoDuplicates(cs) && cs != [] && r != [] && r[0] == cs[0]
    requires InOrderOf(r, cs)
    ensures InOrderOf(r[1..], cs[1..]) && cs[0] !in r[1..]
  {
    var rest := r[1..];
    forall i | 0 <= i < |rest| ensures rest[i] != cs[0] && rest[i] in cs[1..] && IndexOf(cs[1..], rest[i]) == IndexOf(cs, rest[i]) - 1 {
      assert rest[i] == r[i + 1];
      assert IndexOf(cs, r[0]) < IndexOf(cs, r[i + 1]);
      IndexOfTail(cs, rest[i]);
    }
    forall i, j | 0 <= i < j < |rest| ensures IndexOf(cs[1..], rest[i]) < IndexOf(cs[1..], rest[j]) {
      assert rest[i] == r[i + 1] && rest[j] == r[j + 1];
    }
  }

  /** A list in the row's order that avoids the head is in the tail's order. */
  lemma InOrderDrop(r: seq<Channel>, cs: seq<Channel>)
    requires cs != [] && cs[0] !in r
    requires InOrderOf(r, cs)
    ensures InOrderOf(r, cs[1..])
  {
    forall i | 0 <= i < |r| ensures r[i] in cs[1..] && IndexOf(cs[1..], r[i]) == IndexOf(cs, r[i]) - 1 {
      IndexOfTail(cs, r[i]);
    }
  }

  /**
   * A duplicate-free candidate row admits exactly one list that keeps its order and holds
   * exactly the preferred candidates: the filter's result.
   */
  lemma {:induction false} KeepPreferredUnique(cs: seq<Channel>, prefs: seq<Channel>, r: seq<Channel>)
    requires NoDuplicates(cs)
    requires InOrderOf(r, cs)
    requires forall c :: c in r <==> c in cs && c in prefs
    ensures r == KeepPreferred(cs, prefs)
  {
    if cs != [] {
      var tail := cs[1..];
      assert NoDuplicates(tail) by {
        forall i, j | 0 <= i < j < |tail| ensures tail[i] != tail[j] {
          assert tail[i] == cs[i + 1] && tail[j] == cs[j + 1];
        }
      }
      if cs[0] in prefs {
        var k :| 0 <= k < |r| && r[k] == cs[0];
        assert IndexOf(cs, r[0]) <= IndexOf(cs, r[k]);
        var rest := r[1..];
        assert r == [cs[0]] + rest;
        InOrderTail(r, cs);
        forall c ensures c in rest <==> c in tail && c in prefs {
          if c in tail {
            TailMember(cs, c);
          }
        }
        KeepPreferredUnique(tail, prefs, rest);
      } else {
        InOrderDrop(r, cs);
        forall c ensures c in r <==> c in tail && c in prefs {
          if c in tail {
            TailMember(cs, c);
          }
        }
        KeepPreferredUnique(tail, prefs, r);
      }
    }
  }

  // ---------------------------------------------------------------------------------------
  // Properties of the router

  /** The output holds a channel exactly when its row lists it and the user prefers it. */
  lemma RouteMembers(importance: Importance, context: Option<string>, prefs: seq<Channel>)
    ensures forall c :: c in Route(importance, context, prefs)
                        <==> c in Candidates(importance, context) && c in prefs
    ensures forall c :: c in Route(importance, context, prefs) ==> c in prefs
  {
    KeepPreferredMembers(Candidates(importance, context), prefs);
  }

  /** The output keeps the row's order, repeats nothing and has at most three channels. */
  lemma RouteOrdered(importance: Importance, context: Option<string>, prefs: seq<Channel>)
    ensures InOrderOf(Route(importance, context, prefs), Candidates(importance, context))
    ensures NoDuplicates(Route(importance, context, prefs))
    ensures |Route(importance, context, prefs)| <= 3
  {
    var cs := Candidates(importance, context);
    var r := Route(importance, context, prefs);
    KeepPreferredOrdered(cs, prefs);
    forall i, j | 0 <= i < j < |r| ensures r[i] != r[j] {
      assert IndexOf(cs, r[i]) < IndexOf(cs, r[j]);
    }
  }

  /** Membership, order and no repetition pin the output down completely. */
  lemma RouteUnique(importance: Importance, context: Option<string>, prefs: seq<Channel>, r: seq<Channel>)
    requires InOrderOf(r, Candidates(importance, context))
    requires forall c :: c in r <==> c in Candidates(importance, context) && c in prefs
    ensures r == Route(importance, context, prefs)
  {
    KeepPreferredUnique(Candidates(importance, context), prefs, r);
  }

  /** Only which channels are preferred matters, not their order or how often they occur. */
  lemma RouteSameMembers(importance: Importance, context: Option<string>, prefs: seq<Channel>, others: seq<Channel>)
    requires forall c :: c in prefs <==> c in others
    ensures Route(importance, context, prefs) == Route(importance, context, others)
  {
    RouteOrdered(importance, context, others);
    RouteMembers(importance, context, others);
    RouteUnique(importance, context, prefs, Route(importance, context, others));
  }

  /** A user who allows no channel is routed to none, whatever the importance and context. */
  lemma RouteNoPreferences(importance: Importance, context: Option<string>)
    ensures Route(importance, context, []) == []
  {
    KeepPreferredNone(Candidates(importance, context));
  }

  lemma {:induction false} KeepPreferredNone(cs: seq<Channel>)
    ensures KeepPreferred(cs, []) == []
  {
    if cs != [] {
      KeepPreferredNone(cs[1..]);
    }
  }

  /** Under the default preferences every candidate of the row is used, in row order. */
  lemma RouteDefaultPreference(importance: Importance, context: Option<string>, userId: string)
    ensures Route(importance, context, DefaultPreference(userId).preferredChannels)
            == Candidates(importance, context)
  {
    var all := DefaultPreference(userId).preferredChannels;
    var cs := Candidates(importance, context);
    KeepPreferredUnique(cs, all, cs);
  }

  /** Worked case: high importance, email and in-app preferred, gives email then in-app. */
  lemma RouteScenarioHigh()
    ensures Route(High, None, [Email, InApp]) == [Email, InApp]
  {
    var prefs := [Email, InApp];
    assert Sms !in prefs by { assert prefs[0] != Sms && prefs[1] != Sms; }
    assert Email == prefs[0] && InApp == prefs[1];
    RouteHigh(None, prefs);
  }

  /** Worked case: normal importance with only sms preferred gives nothing. */
  lemma RouteScenarioNormal()
    ensures Route(Normal, None, [Sms]) == []
  {
    RouteNormal(None, [Sms]);
  }

  /** Worked case: low importance, opt-in, all preferred, gives in-app, email, sms. */
  lemma RouteScenarioOptIn()
    ensures Route(Low, Some(OptIn), [Email, Sms, InApp]) == [InApp, Email, Sms]
  {
    var prefs := [Email, Sms, InApp];
    assert Email == prefs[0] && Sms == prefs[1] && InApp == prefs[2];
    RouteLow(Low, Some(OptIn), prefs);
  }
}
