/**
 * The native playback control (`ft.Audio`) as the player sees it: a volume
 * property it writes, and the playback calls it issues, recorded in order.
 * Decoding, output and the control's own notifications are outside the model.
 */
module Backend {

  /** A call made on the playback backend. */
  datatype Command = Play | Resume | Pause | Seek(millis: int)

  class Audio {
    /** The backend volume, 0 for silent and 1 for full. */
    var volume: real
    /** Every call made on the backend so far, oldest first. */
    var commands: seq<Command>

    constructor (volume: real)
      ensures this.volume == volume && commands == []
    {
      this.volume := volume;
      commands := [];
    }

    method Issue(c: Command)
      modifies `commands
      ensures commands == old(commands) + [c]
    {
      commands := commands + [c];
    }
  }
}
