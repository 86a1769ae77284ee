/** The error a backend route raises: FastAPI's `HTTPException(status_code, detail)`. */
module Http {
  import Strings

  datatype HttpError = HttpError(status: int, detail: string)

  /** `str(e)` of an `HTTPException` caught by an outer handler: "<status>: <detail>". */
  function Describe(e: HttpError): string {
    Strings.IntToString(e.status) + ": " + e.detail
  }
}
