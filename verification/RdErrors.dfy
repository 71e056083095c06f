/** Errors of the Real-Debrid client, and the classifications that retry and repair decisions use. */
module RdErrors {
  datatype ApiError =
    | RateLimit(code: int, message: string)
    | TrafficExhausted(message: string)
    | Internal(message: string)
    | FairUsageLimit(message: string)
    | OtherApi(code: int, message: string)
  {
    predicate ShouldRetry() { !OtherApi? }

    predicate IsBandwidthLimited() { TrafficExhausted? || FairUsageLimit? }
  }

  function FromCode(code: int, message: string): (e: ApiError)
    ensures e.IsBandwidthLimited() <==> code in {23, 36}
    ensures e.ShouldRetry() <==> code in {5, 34, 429, 23, 36, -1}
  {
    if code == 5 || code == 34 || code == 429 then RateLimit(code, message)
    else if code == 23 then TrafficExhausted(message)
    else if code == 36 then FairUsageLimit(message)
    else if code == -1 then Internal(message)
    else OtherApi(code, message)
  }

  datatype DownloadError =
    | InvalidDownloadCode | FailedGeneration | TooManyAttempts | FileUnavailable
    | BytesLimitReached | LinkUnavailable(status: nat) | ServerError(status: nat) | OtherDownload(message: string)
  {
    /** A fresh unrestricted link may cure the failure. */
    predicate ShouldRefresh() { InvalidDownloadCode? || FailedGeneration? || TooManyAttempts? || LinkUnavailable? }
  }

  /** The `X-Error` header decides before the status does. */
  function FromHeader(header: string, status: nat): (e: DownloadError)
    ensures e.BytesLimitReached? <==> header == "bytes_limit_reached"
    ensures e.ShouldRefresh() <==>
      || header in {"invalid_download_code", "failed_generation", "too_many_attempts"}
      || (header !in {"file_unavailable", "bytes_limit_reached"} && status in {401, 403, 404})
  {
    if header == "invalid_download_code" then InvalidDownloadCode
    else if header == "failed_generation" then FailedGeneration
    else if header == "too_many_attempts" then TooManyAttempts
    else if header == "file_unavailable" then FileUnavailable
    else if header == "bytes_limit_reached" then BytesLimitReached
    else if 500 <= status <= 599 then ServerError(status)
    else if status in {401, 403, 404} then LinkUnavailable(status)
    else OtherDownload(header)
  }

  datatype RdError =
    | Api(api: ApiError)
    | Download(download: DownloadError)
    | Network
    | Cancelled
    | RangeNotSupported
    | MaxRetriesExceeded
  {
    predicate IsBandwidthLimited() {
      if Api? then api.IsBandwidthLimited() else Download? && download.BytesLimitReached?
    }

    predicate ShouldRefresh() { Download? && download.ShouldRefresh() }
  }
}
