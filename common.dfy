/** Value types shared by the three monitor variants. */
module Common {

  /** An optional value: a JSON key or protobuf field that may be absent,
      a fetch that may have failed, a state file that may be missing. */
  datatype Option<+T> = None | Some(value: T) {
    /** Python's `d.get(key, default)`. */
    function GetOr(default: T): T {
      match this
      case Some(v) => v
      case None => default
    }
  }

  /** Where a composed notification is handed over for delivery. */
  datatype Channel = Desktop | Email

  /** One delivery attempt: the channel, and the title (or e-mail subject) and body given to it. */
  datatype Dispatch = Dispatch(channel: Channel, title: string, body: string)

  /** The traffic-status page every variant points its reader to. */
  const TrafficUrl := "https://sl.se/reseplanering/trafiklaget"

  /** The monitored line and its display name (the same constants in every variant). */
  const LineToMonitor := "29"
  const LineName := "Näsbyparkslinjen"

  /** The sentence a notification without records carries: "all disruptions on the Näsbyparken line are resolved". */
  const AllResolved := "Alla störningar på Näsbyparkslinjen har lösts!"
}
