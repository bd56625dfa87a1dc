/**
 * The platform label of a chat event: the game prefixes each platform id
 * with the name of the player's platform and an underscore, and the watcher
 * shows that name instead of the id when it recognises it.
 */
module Platform {
  import opened Text

  /** The platform names the watcher recognises, in the order it tests them. */
  const KnownLabels: seq<string> := ["Xbox", "PSN", "Steam"]

  /** `platformId` carries the prefix of a recognised platform (a case-sensitive test). */
  predicate Recognised(platformId: string) {
    StartsWith(platformId, "Xbox_") || StartsWith(platformId, "PSN_") || StartsWith(platformId, "Steam_")
  }

  /**
   * The label shown for a platform id: the platform name for an id with a
   * recognised prefix, tested in the order Xbox, PSN, Steam, and the id
   * itself otherwise.
   */
  function Label(platformId: string): (shown: string)
    ensures shown == platformId <==> !Recognised(platformId)
    ensures Recognised(platformId) ==> shown in KnownLabels && StartsWith(platformId, shown + "_")
  {
    if StartsWith(platformId, "Xbox_") then "Xbox"
    else if StartsWith(platformId, "PSN_") then "PSN"
    else if StartsWith(platformId, "Steam_") then "Steam"
    else platformId
  }

  /**
   * The three prefixes exclude each other, so the order of the tests does
   * not matter: an id that starts with `name + "_"` for a known name is
   * labelled with that name.
   */
  lemma LabelOfPrefix(platformId: string, name: string)
    requires name in KnownLabels && StartsWith(platformId, name + "_")
    ensures Label(platformId) == name
  {
    assert platformId[0] == (name + "_")[0];
  }

  /** Labelling a label changes nothing. */
  lemma LabelIdempotent(platformId: string)
    ensures Label(Label(platformId)) == Label(platformId)
  {
    var name := Label(platformId);
    if Recognised(platformId) {
      if name == "Xbox" {
        assert name[..4] != "PSN_" by { assert name[0] != 'P'; }
      } else if name == "Steam" {
        assert name[..4] != "PSN_" by { assert name[0] != 'P'; }
        assert name[..5] != "Xbox_" by { assert name[0] != 'X'; }
      }
    }
  }

  /** An id whose first character starts none of the prefixes is not recognised. */
  lemma UnrecognisedByFirst(platformId: string)
    requires platformId != [] && platformId[0] != 'X' && platformId[0] != 'P' && platformId[0] != 'S'
    ensures !Recognised(platformId)
  {
    if |platformId| >= 4 {
      assert platformId[..4][0] == platformId[0];
    }
  }

  /** The tests are case-sensitive: a lower-case prefix is not recognised. */
  lemma ExampleLowerCase()
    ensures Label("steam_76561198") == "steam_76561198"
    ensures Label("Steam_76561198") == "Steam"
  {
    UnrecognisedByFirst("steam_76561198");
    LabelOfPrefix("Steam_76561198", "Steam");
  }
}
