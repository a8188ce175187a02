/**
 * Building a client: the builder's settings, their checks, and the
 * configuration a built client holds. The HTTP clients and error handler it
 * also configures are transport and are not part of this model.
 */
module Client {
  import opened Wrappers
  import opened Predictions
  import opened Polling

  const DEFAULT_BASE_URL := "https://api.replicate.com/v1"
  const DEFAULT_MAX_IN_MEMORY_SIZE := 16 * 1024 * 1024
  /** The retry template builder's refusal of a fixed backoff below one millisecond. */
  const BACKOFF_TOO_SHORT := "Interval should be >= 1"

  /** The immutable configuration of a built client. */
  datatype ApiConfig = ApiConfig(baseUrl: string, apiKey: string, retry: RetryPolicy, maxInMemorySize: int)

  /** The default base URL passes the builder's own text check. */
  lemma DefaultBaseUrlHasText()
    ensures HasText(Some(DEFAULT_BASE_URL))
  {
    assert !IsWhitespace(DEFAULT_BASE_URL[0]);
  }

  class Builder {
    var baseUrl: string
    var apiKey: Option<string>
    var retryFixedBackoffMillis: int
    var retryMaxAttempts: int
    var maxInMemorySize: int

    /** What the builder's checks keep true of its settings. */
    ghost predicate Valid()
      reads this
    {
      HasText(Some(baseUrl)) && retryMaxAttempts > 0 && maxInMemorySize > 0
    }

    constructor ()
      ensures Valid()
      ensures baseUrl == DEFAULT_BASE_URL && apiKey == None
      ensures retryFixedBackoffMillis == DEFAULT_BACKOFF_MILLIS && retryMaxAttempts == DEFAULT_MAX_ATTEMPTS
      ensures maxInMemorySize == DEFAULT_MAX_IN_MEMORY_SIZE
    {
      baseUrl := DEFAULT_BASE_URL;
      apiKey := None;
      retryFixedBackoffMillis := DEFAULT_BACKOFF_MILLIS;
      retryMaxAttempts := DEFAULT_MAX_ATTEMPTS;
      maxInMemorySize := DEFAULT_MAX_IN_MEMORY_SIZE;
      DefaultBaseUrlHasText();
    }

    /** Sets the base URL, which must have text. */
    method BaseUrl(url: Option<string>) returns (r: Result<Builder, Failure>)
      requires Valid()
      modifies this
      ensures Valid()
      ensures r.Ok? <==> HasText(url)
      ensures r.Ok? ==> r.value == this && baseUrl == url.value
      ensures r.Err? ==> r.error == IllegalArgument("baseUrl cannot be empty") && baseUrl == old(baseUrl)
      ensures apiKey == old(apiKey) && retryFixedBackoffMillis == old(retryFixedBackoffMillis)
      ensures retryMaxAttempts == old(retryMaxAttempts) && maxInMemorySize == old(maxInMemorySize)
    {
      if !HasText(url) {
        return Err(IllegalArgument("baseUrl cannot be empty"));
      }
      baseUrl := url.value;
      r := Ok(this);
    }

    /** Sets the API key, which must be non-null (an empty key is accepted). */
    method ApiKey(key: Option<string>) returns (r: Result<Builder, Failure>)
      requires Valid()
      modifies this
      ensures Valid()
      ensures r.Ok? <==> key.Some?
      ensures r.Ok? ==> r.value == this && apiKey == key
      ensures r.Err? ==> r.error == IllegalArgument("ApiKey cannot be null") && apiKey == old(apiKey)
      ensures baseUrl == old(baseUrl) && retryFixedBackoffMillis == old(retryFixedBackoffMillis)
      ensures retryMaxAttempts == old(retryMaxAttempts) && maxInMemorySize == old(maxInMemorySize)
    {
      if key.None? {
        return Err(IllegalArgument("ApiKey cannot be null"));
      }
      apiKey := key;
      r := Ok(this);
    }

    /** Sets the fixed delay between polls, which must be non-null. */
    method RetryFixedBackoff(millis: Option<int>) returns (r: Result<Builder, Failure>)
      requires Valid()
      modifies this
      ensures Valid()
      ensures r.Ok? <==> millis.Some?
      ensures r.Ok? ==> r.value == this && retryFixedBackoffMillis == millis.value
      ensures r.Err? ==> r.error == IllegalArgument("retryFixedBackoff cannot be null")
                         && retryFixedBackoffMillis == old(retryFixedBackoffMillis)
      ensures baseUrl == old(baseUrl) && apiKey == old(apiKey)
      ensures retryMaxAttempts == old(retryMaxAttempts) && maxInMemorySize == old(maxInMemorySize)
    {
      if millis.None? {
        return Err(IllegalArgument("retryFixedBackoff cannot be null"));
      }
      retryFixedBackoffMillis := millis.value;
      r := Ok(this);
    }

    /** Sets the attempt cap of the poll loop, which must be positive. */
    method RetryMaxAttempts(attempts: int) returns (r: Result<Builder, Failure>)
      requires Valid()
      modifies this
      ensures Valid()
      ensures r.Ok? <==> attempts > 0
      ensures r.Ok? ==> r.value == this && retryMaxAttempts == attempts
      ensures r.Err? ==> r.error == IllegalArgument("retryMaxAttempts must be positive")
                         && retryMaxAttempts == old(retryMaxAttempts)
      ensures baseUrl == old(baseUrl) && apiKey == old(apiKey)
      ensures retryFixedBackoffMillis == old(retryFixedBackoffMillis) && maxInMemorySize == old(maxInMemorySize)
    {
      if attempts <= 0 {
        return Err(IllegalArgument("retryMaxAttempts must be positive"));
      }
      retryMaxAttempts := attempts;
      r := Ok(this);
    }

    /** Sets the streaming client's buffer size, which must be positive. */
    method MaxInMemorySize(size: int) returns (r: Result<Builder, Failure>)
      requires Valid()
      modifies this
      ensures Valid()
      ensures r.Ok? <==> size > 0
      ensures r.Ok? ==> r.value == this && maxInMemorySize == size
      ensures r.Err? ==> r.error == IllegalArgument("maxInMemorySize must be positive")
                         && maxInMemorySize == old(maxInMemorySize)
      ensures baseUrl == old(baseUrl) && apiKey == old(apiKey)
      ensures retryFixedBackoffMillis == old(retryFixedBackoffMillis) && retryMaxAttempts == old(retryMaxAttempts)
    {
      if size <= 0 {
        return Err(IllegalArgument("maxInMemorySize must be positive"));
      }
      maxInMemorySize := size;
      r := Ok(this);
    }

    /**
     * Builds the client's configuration. An API key is required; the retry
     * template the client builds next refuses a fixed backoff shorter than one
     * millisecond. A built client always has a positive attempt cap and a
     * positive backoff, which the poll loop needs.
     */
    function Build(): (r: Result<ApiConfig, Failure>)
      reads this
      requires Valid()
      ensures r.Ok? <==> apiKey.Some? && retryFixedBackoffMillis >= 1
      ensures apiKey.None? ==> r == Err(IllegalArgument("cannot construct instance without apiKey"))
      ensures apiKey.Some? && retryFixedBackoffMillis < 1 ==> r == Err(IllegalArgument(BACKOFF_TOO_SHORT))
      ensures r.Ok? ==> r.value.retry.maxAttempts > 0 && r.value.retry.backoffMillis > 0
                        && r.value.maxInMemorySize > 0 && HasText(Some(r.value.baseUrl))
      ensures r.Ok? ==> r.value.retry == RetryPolicy(retryMaxAttempts, retryFixedBackoffMillis)
                        && r.value.apiKey == apiKey.value && r.value.baseUrl == baseUrl
    {
      if apiKey.None? then Err(IllegalArgument("cannot construct instance without apiKey"))
      else if retryFixedBackoffMillis < 1 then Err(IllegalArgument(BACKOFF_TOO_SHORT))
      else Ok(ApiConfig(baseUrl, apiKey.value, RetryPolicy(retryMaxAttempts, retryFixedBackoffMillis), maxInMemorySize))
    }
  }
}
