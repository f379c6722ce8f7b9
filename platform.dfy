/** Values that the JavaScript runtime and the browser hand to the application. */
module Platform {

  /** A value that may be absent (`null` or `undefined` in the application). */
  datatype Option<+T> = None | Some(value: T)

  /** A thrown value: an `Error` instance carrying its message, or anything else
      (a FileReader error event, for one). */
  datatype Exception = ErrorInstance(message: string) | NonError

  /** How an awaited promise settles. */
  datatype Outcome<+T> = Resolved(value: T) | Rejected(error: Exception)

  const UnknownErrorMessage := "An unknown error occurred."

  /** The message every panel shows for a caught value:
      the message of an `Error`, and a fixed text for anything else. */
  function ErrorText(e: Exception): string
  {
    match e
    case ErrorInstance(message) => message
    case NonError => UnknownErrorMessage
  }

  /** The two fields of `GeolocationCoordinates` the application reads. The browser
      gives them as floating-point numbers; the application only copies them, so
      they are kept as opaque reals. */
  datatype Coordinates = Coordinates(latitude: real, longitude: real)

  /** A file the user picked. The application reads only its MIME type (`file.type`);
      its bytes reach the model only through the data URL a FileReader produces. */
  datatype File = File(name: string, mimeType: string)

  /** A picked file with the object URL the panel displays it from. */
  datatype SelectedImage = SelectedImage(file: File, url: string)
}
