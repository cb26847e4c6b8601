/** The records shared by the page, the preview and the generators. */
module FlyerTypes {
  import opened JsValues

  /** A JavaScript `Date`, as the number of milliseconds since the epoch.
      A `Date` object is always truthy, so only its presence matters to the
      guards; its text is produced by a date formatter the model takes as a
      parameter. */
  datatype Date = Date(epochMillis: int)

  /** The event the flyer describes. `date` is `Date | undefined`. */
  datatype EventDetails = EventDetails(
    name: string,
    description: string,
    date: Option<Date>,
    location: string)

  /** A catalog entry. The catalog itself is not part of this model; every
      default is optional, and an empty default counts as absent because the
      page reads it with `||`. */
  datatype Template = Template(
    id: string,
    name: string,
    description: string,
    category: string,
    defaultEventName: Option<string>,
    defaultEventDescription: Option<string>,
    defaultTagline: Option<string>,
    defaultImageHint: Option<string>)
}
