/** The fluent builder for product fetch options. Its two fields start unset;
    the setters assign them and `Build` checks that both were set. */
module OptionsBuilder {
  import opened Results
  import opened RetryRecords

  /** The two errors `Build` throws. */
  datatype BuildError = NoImpersonationSet | NoApiSet

  /** A product API the builder can select. */
  predicate KnownApi(api: Api)
  {
    api == Jira || api == Confluence || api == Bitbucket
  }

  class ProductFetchOptionsBuilder {
    var impersonation: Option<Impersonation>
    var api: Option<Api>

    /** The only impersonation setter is `AsApp` (the user setter is disabled
        in the source), and the only api setters pick a known product. */
    ghost predicate Valid()
      reads this
    {
      (impersonation.Some? ==> impersonation.value == App) &&
      (api.Some? ==> KnownApi(api.value))
    }

    constructor ()
      ensures Valid()
      ensures impersonation == None && api == None
    {
      impersonation := None;
      api := None;
    }

    method AsApp() returns (builder: ProductFetchOptionsBuilder)
      requires Valid()
      modifies this`impersonation
      ensures Valid()
      ensures builder == this
      ensures impersonation == Some(App) && api == old(api)
    {
      impersonation := Some(App);
      return this;
    }

    method AgainstJira() returns (builder: ProductFetchOptionsBuilder)
      requires Valid()
      modifies this`api
      ensures Valid()
      ensures builder == this
      ensures api == Some(Jira) && impersonation == old(impersonation)
    {
      api := Some(Jira);
      return this;
    }

    method AgainstConfluence() returns (builder: ProductFetchOptionsBuilder)
      requires Valid()
      modifies this`api
      ensures Valid()
      ensures builder == this
      ensures api == Some(Confluence) && impersonation == old(impersonation)
    {
      api := Some(Confluence);
      return this;
    }

    method AgainstBitbucket() returns (builder: ProductFetchOptionsBuilder)
      requires Valid()
      modifies this`api
      ensures Valid()
      ensures builder == this
      ensures api == Some(Bitbucket) && impersonation == old(impersonation)
    {
      api := Some(Bitbucket);
      return this;
    }

    /** The options from the most recently set values; the impersonation is
        checked first. Changes nothing, so repeated calls agree. */
    method Build() returns (r: Result<ProductFetchOptions, BuildError>)
      ensures impersonation.None? ==> r == Err(NoImpersonationSet)
      ensures impersonation.Some? && api.None? ==> r == Err(NoApiSet)
      ensures r.Ok? <==> impersonation.Some? && api.Some?
      ensures r.Ok? ==> Some(r.value.impersonation) == impersonation && Some(r.value.api) == api
      ensures Valid() && r.Ok? ==> r.value.impersonation == App && KnownApi(r.value.api)
    {
      if impersonation.None? {
        return Err(NoImpersonationSet);
      }
      if api.None? {
        return Err(NoApiSet);
      }
      var productFetchOptions := ProductFetchOptions(impersonation.value, api.value);
      return Ok(productFetchOptions);
    }
  }
}
