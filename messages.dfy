/** The outbound messages of app.js as opaque tagged values, the table of
    sound files and the index arithmetic of `sendAudioLinkMessage`. */
module Messages {

  /** One outbound message, as built by the `send...Message` helpers.
      The wording of the texts is not modelled; only which message it is. */
  datatype Msg =
    | Intro               // "Hi there, I can help you select an ambient sound ..."
    | MoodSelection       // button template with the three mood options
    | LocationSelection   // button template with the three location options
    | PleaseWait          // "I'm sending you your ambient sounds now, please wait."
    | AudioLink(index: int)  // SERVER_URL + "/" + SOUND_FILENAMES[index]
    | Closing             // "Here is your ambient sound effect. ..."

  /** `SOUND_FILENAMES`: mood-major, location-minor. */
  const SoundFilenames: seq<string> :=
    [ "forest_birds.mp3", "city_hum.mp3", "river.mp3",
      "evening_rain_forest.mp3", "night_crickets.mp3", "night_forest_stream.mp3",
      "ocean_waves.mp3", "cafe.mp3", "stormy_street.mp3" ]

  /** The payloads of a message's buttons, in button order; text messages have none. */
  function Buttons(m: Msg): seq<string>
  {
    match m
    case MoodSelection => ["mood-option-1", "mood-option-2", "mood-option-3"]
    case LocationSelection => ["location-option-1", "location-option-2", "location-option-3"]
    case _ => []
  }

  /** `(targetmood - 1) * 3 + (targetlocation - 1)`, computed for any stored values. */
  function AudioIndex(mood: int, location: int): (i: int)
    ensures 1 <= mood <= 3 && 1 <= location <= 3 ==> 0 <= i < |SoundFilenames|
  {
    (mood - 1) * 3 + (location - 1)
  }

  /** The mood and location answers an index of the table stands for. */
  function MoodOf(index: int): int { index / 3 + 1 }
  function LocationOf(index: int): int { index % 3 + 1 }

  /** Each (mood, location) pair selects its own entry: the index is a bijection
      between {1,2,3} x {1,2,3} and the nine positions of the table. */
  lemma AudioIndexRoundTrip(mood: int, location: int)
    requires 1 <= mood <= 3 && 1 <= location <= 3
    ensures MoodOf(AudioIndex(mood, location)) == mood
    ensures LocationOf(AudioIndex(mood, location)) == location
  {
    var m, l := mood - 1, location - 1;
    assert AudioIndex(mood, location) == 3 * m + l;
    assert (3 * m + l) / 3 == m && (3 * m + l) % 3 == l by {
      if m == 0 {} else if m == 1 {} else {}
    }
  }

  lemma AudioIndexCovers(index: int)
    requires 0 <= index < |SoundFilenames|
    ensures 1 <= MoodOf(index) <= 3 && 1 <= LocationOf(index) <= 3
    ensures AudioIndex(MoodOf(index), LocationOf(index)) == index
  {
  }

  lemma AudioIndexInjective(m1: int, l1: int, m2: int, l2: int)
    requires 1 <= m1 <= 3 && 1 <= l1 <= 3 && 1 <= m2 <= 3 && 1 <= l2 <= 3
    requires AudioIndex(m1, l1) == AudioIndex(m2, l2)
    ensures m1 == m2 && l1 == l2
  {
    AudioIndexRoundTrip(m1, l1);
    AudioIndexRoundTrip(m2, l2);
  }

  /** The text of the audio-link message: out of range, JavaScript's array
      lookup yields `undefined`, which string concatenation renders as "undefined". */
  function AudioText(serverUrl: string, index: int): (t: string)
    ensures 0 <= index < |SoundFilenames| ==> t == serverUrl + "/" + SoundFilenames[index]
    ensures !(0 <= index < |SoundFilenames|) ==> t == serverUrl + "/undefined"
  {
    serverUrl + "/" + (if 0 <= index < |SoundFilenames| then SoundFilenames[index] else "undefined")
  }

  /** The nine file names are pairwise different. */
  lemma SoundFilenamesDistinct(i: int, j: int)
    requires 0 <= i < |SoundFilenames| && 0 <= j < |SoundFilenames| && i != j
    ensures SoundFilenames[i] != SoundFilenames[j]
  {
    var f := SoundFilenames;
    assert f[i][0] != f[j][0] || f[i][1] != f[j][1] || f[i][6] != f[j][6];
  }

  /** For answers in 1..3 the link names one of the sound files, never
      `undefined`, and different answers give different links. */
  lemma AudioLinkText(url: string, mood: int, location: int)
    requires 1 <= mood <= 3 && 1 <= location <= 3
    ensures var t := AudioText(url, AudioIndex(mood, location));
            && t[..|url| + 1] == url + "/" && t[|url| + 1..] in SoundFilenames
            && t != url + "/undefined"
    ensures AudioText(url, AudioIndex(1, 2)) == url + "/city_hum.mp3"
  {
    var t := AudioText(url, AudioIndex(mood, location));
    var file := SoundFilenames[AudioIndex(mood, location)];
    assert t == (url + "/") + file;
    assert t[..|url| + 1] == url + "/" && t[|url| + 1..] == file;
    assert file[0] != 'u';
    assert (url + "/undefined")[|url| + 1..] == "undefined";
  }

  /** Two different answer pairs never produce the same link text. */
  lemma AudioLinkTextInjective(url: string, m1: int, l1: int, m2: int, l2: int)
    requires 1 <= m1 <= 3 && 1 <= l1 <= 3 && 1 <= m2 <= 3 && 1 <= l2 <= 3
    requires (m1, l1) != (m2, l2)
    ensures AudioText(url, AudioIndex(m1, l1)) != AudioText(url, AudioIndex(m2, l2))
  {
    var i, j := AudioIndex(m1, l1), AudioIndex(m2, l2);
    if i == j {
      AudioIndexInjective(m1, l1, m2, l2);
    } else {
      SoundFilenamesDistinct(i, j);
      var a, b := AudioText(url, i), AudioText(url, j);
      assert a[|url| + 1..] == SoundFilenames[i] && b[|url| + 1..] == SoundFilenames[j];
    }
  }
}
