/** Spring Security's Authentication and the per-request SecurityContext slot. */
module SpringSecurity {
  import opened Wrappers

  /** An authenticated principal: its name and its granted authorities. */
  datatype Authentication = Authentication(name: string, authorities: seq<string>)

  /** The security context of one request: a single slot, empty (null) or holding an Authentication. */
  class SecurityContext {
    var authentication: Option<Authentication>

    constructor ()
      ensures authentication == None
    {
      authentication := None;
    }

    /** setAuthentication; passing None is setAuthentication(null). */
    method SetAuthentication(a: Option<Authentication>)
      modifies this
      ensures authentication == a
    {
      authentication := a;
    }
  }
}
