/**
 * The one query of the application: the friends two citizens have in common
 * that are alive and have brown eyes. Friends are the directed relation of
 * the store, so only the edges leaving each of the two citizens count.
 */
module UseCases {
  import opened Wrappers
  import opened Models
  import opened Store

  const Brown := "brown"

  /**
   * The filter `eye_color__color_name='brown', has_died=False` on one row: a
   * citizen whose eye colour row is named "brown" and who has not died.
   */
  predicate LiveBrownEyed(t: Tables, id: int) {
    && id in t.citizens
    && !t.citizens[id].profile.hasDied
    && t.citizens[id].eyeColor in t.eyeColors
    && t.eyeColors[t.citizens[id].eyeColor] == Brown
  }

  /** `citizen.friends.filter(...)`: the citizens `a` lists as friends that pass the filter. */
  function LiveBrownEyedFriends(t: Tables, a: int): set<int>
    requires a in t.friends
  {
    set x | x in t.friends[a] && LiveBrownEyed(t, x)
  }

  /**
   * `get_common_live_brown_eyed_friends`: the intersection of the two
   * filtered friend sets. A returned citizen is a friend of both, alive and
   * brown-eyed; every such citizen is returned.
   */
  function CommonLiveBrownEyedFriends(t: Tables, a: int, b: int): (r: set<int>)
    requires a in t.friends && b in t.friends
    ensures forall x :: x in r ==> x in t.friends[a] && x in t.friends[b]
    ensures forall x :: x in r ==> x in t.citizens && !t.citizens[x].profile.hasDied
    ensures forall x :: x in r ==> t.citizens[x].eyeColor in t.eyeColors && t.eyeColors[t.citizens[x].eyeColor] == Brown
    ensures forall x :: x in t.friends[a] && x in t.friends[b] && LiveBrownEyed(t, x) ==> x in r
  {
    LiveBrownEyedFriends(t, a) * LiveBrownEyedFriends(t, b)
  }

  /** Swapping the two citizens gives the same result. */
  lemma CommonFriendsSymmetric(t: Tables, a: int, b: int)
    requires a in t.friends && b in t.friends
    ensures CommonLiveBrownEyedFriends(t, a, b) == CommonLiveBrownEyedFriends(t, b, a)
  {
    var ab := CommonLiveBrownEyedFriends(t, a, b);
    var ba := CommonLiveBrownEyedFriends(t, b, a);
    forall x | x in ab
      ensures x in ba
    {
    }
    forall x | x in ba
      ensures x in ab
    {
    }
  }

  /**
   * Only outgoing edges count: a citizen who lists `a` as a friend, but whom
   * `a` does not list, is never in the result.
   */
  lemma OnlyOutgoingEdges(t: Tables, a: int, b: int, x: int)
    requires a in t.friends && b in t.friends
    requires x in t.friends && a in t.friends[x] && x !in t.friends[a]
    ensures x !in CommonLiveBrownEyedFriends(t, a, b)
  {
  }

  /**
   * Two citizens 1 and 2 who both list 3 (alive, brown eyes), 4 (blue eyes)
   * and 5 (brown eyes, dead): only 3 is a common live brown-eyed friend.
   */
  function ExampleCitizen(eyeColor: int, hasDied: bool): Citizen {
    Citizen(Profile("", "", hasDied, "", 30, "", "", "", "", ""), DateTime(0, 0, 0), 0, NotKnown,
            eyeColor, 0, None, {}, {})
  }

  const ExampleTables := Tables(
    map[],
    map[1 := "blue", 2 := "brown"],
    map[],
    map[],
    map[0 := Address("", "", "", "")],
    map[1 := ExampleCitizen(2, false), 2 := ExampleCitizen(2, false), 3 := ExampleCitizen(2, false),
        4 := ExampleCitizen(1, false), 5 := ExampleCitizen(2, true)],
    map[1 := {3, 4, 5}, 2 := {3, 4, 5}, 3 := {}, 4 := {}, 5 := {}])

  lemma CommonFriendsExample()
    ensures CommonLiveBrownEyedFriends(ExampleTables, 1, 2) == {3}
  {
    var t := ExampleTables;
    var r := CommonLiveBrownEyedFriends(t, 1, 2);
    assert LiveBrownEyed(t, 3);
    assert !LiveBrownEyed(t, 4) && !LiveBrownEyed(t, 5);
    forall x | x in r
      ensures x == 3
    {
      assert x in t.friends[1];
    }
  }
}
