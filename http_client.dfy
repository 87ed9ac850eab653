/** The shared axios set-up (src/lib/axios.ts): the request and response
    interceptors, the status-to-toast classification and `refreshToken`. */
module HttpClient {
  import opened Wrappers
  import opened Types
  import opened Browser

  /** The `Authorization` value the request interceptor adds: present iff the
      stored session has a truthy token. */
  function StoredBearer(storage: Storage): (h: Option<string>)
    ensures h.Some? <==> StoredAuth(storage).Some? && Truthy(StoredAuth(storage).value.token)
    ensures h.Some? ==> h.value == Bearer(StoredAuth(storage).value.token.value)
  {
    var saved := StoredAuth(storage);
    if saved.Some? && Truthy(saved.value.token) then Some(Bearer(saved.value.token.value)) else None
  }

  /** The headers of one outgoing request. */
  class RequestConfig {
    var headers: map<string, string>

    constructor (headers: map<string, string>)
      ensures this.headers == headers
    {
      this.headers := headers;
    }
  }

  /** The request interceptor: `Authorization` set from the stored token when
      there is a truthy one; otherwise the config is left as it is. */
  method InterceptRequest(env: Env, config: RequestConfig)
    modifies config
    ensures StoredBearer(env.storage).Some? ==>
              config.headers == old(config.headers)["Authorization" := StoredBearer(env.storage).value]
    ensures StoredBearer(env.storage).None? ==> config.headers == old(config.headers)
  {
    var bearer := StoredBearer(env.storage);
    if bearer.Some? {
      config.headers := config.headers["Authorization" := bearer.value];
    }
  }

  /** The response interceptor: every outcome passes through unchanged; a 401
      additionally drops the stored session and the default header. */
  method InterceptResponse<T>(env: Env, outcome: Response<T>) returns (r: Response<T>)
    modifies env
    ensures r == outcome
    ensures outcome == Err(Some(401)) ==> env.storage == old(env.storage) - {AuthKey} && env.authHeader == None
    ensures outcome != Err(Some(401)) ==> env.storage == old(env.storage) && env.authHeader == old(env.authHeader)
    ensures env.log == old(env.log)
  {
    if outcome == Err(Some(401)) {
      env.RemoveItem(AuthKey);
      env.DeleteHeader();
    }
    r := outcome;
  }

  /** What a failed call carries: the response status if a response came, and
      whether a request went out at all. */
  datatype CallError = CallError(status: Option<int>, requestMade: bool)

  /** `handleAxiosError`'s toast, if any. */
  function ErrorToast(e: CallError): (t: Option<Effect>)
    ensures e.status == Some(401) <==> t == Some(Toast("Sesión expirada", Warning))
    ensures e.status == Some(403) <==> t == Some(Toast("Acceso denegado", Error))
    ensures e.status == Some(404) <==> t == Some(Toast("No encontrado", Error))
    ensures e.status == Some(500) <==> t == Some(Toast("Error del servidor", Error))
    ensures e.status.Some? && e.status.value !in {401, 403, 404, 500} <==> t == Some(Toast("Error", Error))
    ensures e.status.None? && e.requestMade <==> t == Some(Toast("Error de conexión", Error))
    ensures t.None? <==> e.status.None? && !e.requestMade
  {
    match e.status
    case Some(code) =>
      if code == 401 then Some(Toast("Sesión expirada", Warning))
      else if code == 403 then Some(Toast("Acceso denegado", Error))
      else if code == 404 then Some(Toast("No encontrado", Error))
      else if code == 500 then Some(Toast("Error del servidor", Error))
      else Some(Toast("Error", Error))
    case None =>
      if e.requestMade then Some(Toast("Error de conexión", Error)) else None
  }

  /** Every failure that reached the network is reported by exactly one toast. */
  method HandleAxiosError(env: Env, e: CallError)
    modifies env
    ensures env.log == old(env.log) + (if ErrorToast(e).Some? then [ErrorToast(e).value] else [])
    ensures env.storage == old(env.storage) && env.authHeader == old(env.authHeader)
  {
    var t := ErrorToast(e);
    if t.Some? {
      env.Emit(t.value);
    }
  }

  const RefreshPath: string := "/auth/refresh"

  /** `refreshToken`: nothing stored means null and no request. Otherwise the
      refresh is posted; its token is returned on success, and on failure the
      stored session is dropped and null returned. The call goes through the
      response interceptor, so a 401 also drops the default header. */
  method RefreshToken(env: Env, outcome: Response<Option<string>>) returns (token: Option<string>)
    modifies env
    ensures AuthKey !in old(env.storage) ==>
              token.None? && env.storage == old(env.storage) && env.log == old(env.log)
              && env.authHeader == old(env.authHeader)
    ensures AuthKey in old(env.storage) ==>
              && env.log == old(env.log) + [Request("POST", RefreshPath, [])]
              && (outcome.Ok? ==> token == outcome.body && env.storage == old(env.storage)
                                  && env.authHeader == old(env.authHeader))
              && (outcome.Err? ==> token.None? && env.storage == old(env.storage) - {AuthKey})
              && (outcome.Err? && outcome != Err(Some(401)) ==> env.authHeader == old(env.authHeader))
              && (outcome == Err(Some(401)) ==> env.authHeader == None)
  {
    if AuthKey !in env.storage {
      return None;
    }
    env.Emit(Request("POST", RefreshPath, []));
    var r := InterceptResponse(env, outcome);
    match r {
      case Ok(t) =>
        token := t;
      case Err(_) =>
        env.RemoveItem(AuthKey);
        token := None;
    }
  }
}
