/** The values the plugin keeps besides its connection: what is playing and
    the user's settings. */
module Media {
  import opened Wrappers

  /** A track as the server sends it. `artworkDataUrl` is filled in by the
      plugin from the artwork cache before the state is stored. */
  datatype Track = Track(
    title: string,
    artist: string,
    artworkSrc: Option<string>,
    artworkDataUrl: Option<string>)

  /** `playerState`: replaced wholesale by every message the server sends. */
  datatype PlayerState = PlayerState(playing: bool, track: Option<Track>)

  /** The state the constructor leaves: nothing playing. */
  const NothingPlaying: PlayerState := PlayerState(false, None)

  datatype Position = Above | Below

  datatype Settings = Settings(showPlayer: bool, playerPosition: Position, showTrackControls: bool)

  const DefaultSettings: Settings := Settings(true, Above, true)

  /** What the host's storage gives back: any of the keys may be missing
      (all of them, when nothing was ever saved). */
  datatype StoredSettings = StoredSettings(
    showPlayer: Option<bool>,
    playerPosition: Option<Position>,
    showTrackControls: Option<bool>)

  /** The stored form of a whole settings object, as the settings panel saves it. */
  function Stored(s: Settings): StoredSettings {
    StoredSettings(Some(s.showPlayer), Some(s.playerPosition), Some(s.showTrackControls))
  }

  /** `Object.assign(settings, stored)`: every stored key overrides, every
      missing key keeps the current value. */
  function MergeSettings(s: Settings, stored: StoredSettings): Settings {
    Settings(
      stored.showPlayer.GetOr(s.showPlayer),
      stored.playerPosition.GetOr(s.playerPosition),
      stored.showTrackControls.GetOr(s.showTrackControls))
  }

  /** Loading what was saved restores it, whatever the settings were before. */
  lemma MergeStored(before: Settings, saved: Settings)
    ensures MergeSettings(before, Stored(saved)) == saved
  {
  }

  /** Loading the same stored keys twice changes nothing the second time, and
      loading nothing keeps the settings. */
  lemma MergeIdempotent(s: Settings, stored: StoredSettings)
    ensures MergeSettings(MergeSettings(s, stored), stored) == MergeSettings(s, stored)
    ensures MergeSettings(s, StoredSettings(None, None, None)) == s
  {
  }
}
