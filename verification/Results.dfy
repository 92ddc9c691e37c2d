/** What a call gives back, and what can happen to it on the way. */
module Results {
  datatype Option<+T> = None | Some(value: T)

  /** The errors the operator tells apart, and one for everything else. */
  datatype Error =
    | ZoneNotFound        // the operator's own HostedZoneNotFoundError
    | NoSuchHostedZone    // AWS: the zone id is unknown
    | HostedZoneNotEmpty  // AWS: record sets are left
    | InvalidChangeBatch  // AWS: a change does not fit the zone
    | PrefixListNotFound  // AWS: the prefix list id is unknown
    | Conflict            // API server: stale resource version
    | Forbidden           // API server: no new finalizer on a deleted object
    | Failed              // any other failure, lost responses included

  datatype Result<+T> = Ok(value: T) | Err(error: Error)

  /** A remote call does its work, fails before it, or does it and loses the response. */
  datatype Fault = NoFault | FailsBefore | ResponseLost
}
