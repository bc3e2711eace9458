/** Option and Result values, and the exceptions the modelled code can raise. */
module Results {

  datatype Option<+T> = None | Some(value: T)

  /** What a Python call returns, or the exception it raises instead.
      Works with `:-`, so a raised exception propagates as in Python. */
  datatype Result<+T, +E> = Ok(value: T) | Err(error: E) {
    predicate IsFailure() { Err? }

    function PropagateFailure<U>(): Result<U, E>
      requires Err?
    {
      Err(error)
    }

    function Extract(): T
      requires Ok?
    {
      value
    }
  }

  /** The exceptions that escape metadata fetching and feed reading. */
  datatype Error =
    | FetchFailed(reason: string)        // requests.Timeout, requests.RequestException or a bencode decode error
    | UnexpectedMetadataFormat           // torrent.py:31, decoded value is not a dictionary
    | MissingInfo                        // torrent.py:62, 70, 78
    | LengthNotIntOrList                 // torrent.py:85
    | LengthItemNotDict                  // torrent.py:83, `item.get` on an item that is not a dictionary
    | LengthItemNotInt                   // torrent.py:83, `sum` meets a `length` that is not an integer
    | NameNotBytes                       // torrent.py:72, `.decode` on a `name` that is not bytes
    | InvalidLength(text: string)        // rss.py:28, `int(str(link.length))` rejects the text
}
