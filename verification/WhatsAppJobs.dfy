/** The jobs that may be queued for one WhatsApp message, by their singleton keys. */
module WhatsAppJobs {

  /** A key is never queued twice. */
  datatype Job = First | Retry(n: nat) | Delayed | Recovered | Stale
}
