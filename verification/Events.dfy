/** The domain event, immutable after creation. */
module Events {

  const PRIORITY_UNSPECIFIED: int := 0
  const PRIORITY_MEDIUM: int := 2
  const PRIORITY_CRITICAL: int := 4

  datatype Event = Event(
    id: string,
    source: string,
    eventType: string,
    subject: string,
    data: seq<bv8>,
    dataContentType: string,
    schemaURL: string,
    timestamp: int,
    metadata: map<string, string>,
    correlationID: string,
    causationID: string,
    partitionKey: string,
    priority: int)
}
