/**
 * Enterprise support helpers: the cache key built from keyword arguments
 * (`name:value` pieces joined by `__`, then hashed), and the rewrite of the
 * third-party-authentication context's error message for an enterprise
 * customer.
 */
module EnterpriseSupport {
  import opened Base

  // ---------------------------------------------------------------------------
  // get_cache_key
  // ---------------------------------------------------------------------------

  /** One keyword argument, its value already rendered by `'{}'.format`. */
  datatype Argument = Argument(name: string, value: string)

  const PieceSeparator: string := "__"

  /** `'{}:{}'.format(item, value)`. */
  function KeyPiece(arg: Argument): string {
    arg.name + ":" + arg.value
  }

  function KeyPieces(args: seq<Argument>): (r: seq<string>)
    ensures |r| == |args|
    ensures forall i :: 0 <= i < |args| ==> r[i] == KeyPiece(args[i])
  {
    if args == [] then [] else [KeyPiece(args[0])] + KeyPieces(args[1..])
  }

  /** The key before hashing: one `name:value` piece per argument, in iteration order, joined by `__`. */
  function PreHashKey(args: seq<Argument>): string {
    Join(KeyPieces(args), PieceSeparator)
  }

  /** get_cache_key, with the MD5 hex digest as a parameter. */
  function CacheKey(args: seq<Argument>, md5Hex: string -> string): string
  {
    md5Hex(PreHashKey(args))
  }

  /** A single argument is its piece alone, with no separator. */
  lemma PreHashKeySingle(arg: Argument)
    ensures PreHashKey([arg]) == arg.name + ":" + arg.value
  {
  }

  /** The key of a longer argument list is the keys of its two parts joined by one separator. */
  lemma PreHashKeyAppend(a: seq<Argument>, b: seq<Argument>)
    requires a != [] && b != []
    ensures PreHashKey(a + b) == PreHashKey(a) + PieceSeparator + PreHashKey(b)
  {
    assert KeyPieces(a + b) == KeyPieces(a) + KeyPieces(b);
    JoinAppend(KeyPieces(a), KeyPieces(b), PieceSeparator);
  }

  /** Two arguments: both pieces, one separator between them. */
  lemma PreHashKeyPair(first: Argument, second: Argument)
    ensures PreHashKey([first, second]) == KeyPiece(first) + PieceSeparator + KeyPiece(second)
  {
    assert [first] + [second] == [first, second];
    PreHashKeyAppend([first], [second]);
  }

  /** The example of get_cache_key's documentation: "site_domain:example.com__resource:enterprise-learner". */
  lemma DocumentedExample()
    ensures PreHashKey([Argument("site_domain", "example.com"), Argument("resource", "enterprise-learner")])
         == "site_domain:example.com" + "__" + "resource:enterprise-learner"
  {
    PreHashKeyPair(Argument("site_domain", "example.com"), Argument("resource", "enterprise-learner"));
    assert KeyPiece(Argument("site_domain", "example.com")) == "site_domain:example.com";
    assert KeyPiece(Argument("resource", "enterprise-learner")) == "resource:enterprise-learner";
  }

  /**
   * The key does not identify its arguments uniquely: a value that contains
   * the separator reads the same as two arguments, so two different calls
   * share one cache entry whatever the hash.
   */
  lemma CacheKeyCollides(md5Hex: string -> string)
    ensures CacheKey([Argument("a", "b__c:d")], md5Hex) == CacheKey([Argument("a", "b"), Argument("c", "d")], md5Hex)
    ensures [Argument("a", "b__c:d")] != [Argument("a", "b"), Argument("c", "d")]
  {
    PreHashKeyAppend([Argument("a", "b")], [Argument("c", "d")]);
    assert KeyPiece(Argument("a", "b__c:d")) == KeyPiece(Argument("a", "b")) + PieceSeparator + KeyPiece(Argument("c", "d"));
  }

  // ---------------------------------------------------------------------------
  // update_third_party_auth_context_for_enterprise
  // ---------------------------------------------------------------------------

  /** The dictionary values this code reads or writes. */
  datatype Value = Null | Str(text: string)

  /** Python truthiness of a value. */
  predicate Truthy(v: Value) {
    v.Str? && v.text != ""
  }

  /** `'{}'.format(v)`. */
  function Render(v: Value): string {
    match v
    case Null => "None"
    case Str(text) => text
  }

  /** The outcome of a dictionary operation that may raise KeyError. */
  datatype Lookup<T> = Found(value: T) | KeyError(key: string)

  const ErrorMessageKey: string := "errorMessage"
  const NameKey: string := "name"
  const LineBreak: string := "<br/>"

  /** The support link: the support site URL under the label "edX Support". */
  function SupportLink(supportUrl: string): string {
    "<a href=\"" + supportUrl + "\">edX Support</a>"
  }

  /** The enterprise wording of a third-party-auth error (untranslated, without markup escaping). */
  function EnterpriseErrorMessage(platformName: string, enterprise: string, supportUrl: string,
                                  errorMessage: string): (message: string)
    ensures |message| >= |errorMessage| && message[|message| - |errorMessage|..] == errorMessage
  {
    "We are sorry, you are not authorized to access " + platformName + " via this channel. "
      + "Please contact your " + enterprise + " administrator in order to access " + platformName
      + " or contact " + SupportLink(supportUrl) + "." + LineBreak
      + LineBreak
      + "Error Details:" + LineBreak + errorMessage
  }

  /** `enterprise_customer and context['errorMessage']`: the customer is present and non-empty first. */
  predicate CustomerGiven(enterpriseCustomer: Option<map<string, Value>>) {
    enterpriseCustomer.Some? && enterpriseCustomer.value != map[]
  }

  /**
   * The context after the update: unchanged without a customer or without an
   * error message; KeyError when the customer is given but the context has
   * no errorMessage, or when the rewrite is due but the customer has no name;
   * otherwise only errorMessage is replaced by the enterprise wording.
   */
  function UpdatedContext(context: map<string, Value>, enterpriseCustomer: Option<map<string, Value>>,
                          platformName: string, supportUrl: string): Lookup<map<string, Value>>
  {
    if !CustomerGiven(enterpriseCustomer) then Found(context)
    else if ErrorMessageKey !in context then KeyError(ErrorMessageKey)
    else if !Truthy(context[ErrorMessageKey]) then Found(context)
    else if NameKey !in enterpriseCustomer.value then KeyError(NameKey)
    else
      var message := EnterpriseErrorMessage(platformName, Render(enterpriseCustomer.value[NameKey]), supportUrl,
                                            Render(context[ErrorMessageKey]));
      Found(context[ErrorMessageKey := Str(message)])
  }

  /** With no customer, or with an empty error message, the context comes back as it was. */
  lemma UnchangedWithoutGuard(context: map<string, Value>, enterpriseCustomer: Option<map<string, Value>>,
                              platformName: string, supportUrl: string)
    requires !CustomerGiven(enterpriseCustomer)
             || (ErrorMessageKey in context && !Truthy(context[ErrorMessageKey]))
    ensures UpdatedContext(context, enterpriseCustomer, platformName, supportUrl) == Found(context)
  {
  }

  /** KeyError arises exactly when a key the rewrite needs is missing, and names that key. */
  lemma KeyErrorCases(context: map<string, Value>, enterpriseCustomer: Option<map<string, Value>>,
                      platformName: string, supportUrl: string)
    ensures UpdatedContext(context, enterpriseCustomer, platformName, supportUrl).KeyError? <==>
              CustomerGiven(enterpriseCustomer)
              && (ErrorMessageKey !in context
                  || (Truthy(context[ErrorMessageKey]) && NameKey !in enterpriseCustomer.value))
    ensures UpdatedContext(context, enterpriseCustomer, platformName, supportUrl) == KeyError(NameKey) ==>
              ErrorMessageKey in context && Truthy(context[ErrorMessageKey])
  {
  }

  /**
   * Under the guard only errorMessage changes: every other key keeps its
   * value, no key appears or disappears, and the new message ends with the
   * old one.
   */
  lemma OnlyErrorMessageRewritten(context: map<string, Value>, enterpriseCustomer: Option<map<string, Value>>,
                                  platformName: string, supportUrl: string)
    requires UpdatedContext(context, enterpriseCustomer, platformName, supportUrl).Found?
    ensures var updated := UpdatedContext(context, enterpriseCustomer, platformName, supportUrl).value;
            && updated.Keys == context.Keys
            && (forall key :: key in context && key != ErrorMessageKey ==> updated[key] == context[key])
            && (ErrorMessageKey in context && updated[ErrorMessageKey] != context[ErrorMessageKey] ==>
                  CustomerGiven(enterpriseCustomer) && Truthy(context[ErrorMessageKey])
                  && updated[ErrorMessageKey].Str?
                  && var previous := Render(context[ErrorMessageKey]);
                     var text := updated[ErrorMessageKey].text;
                     |text| >= |previous| && text[|text| - |previous|..] == previous)
  {
    var updated := UpdatedContext(context, enterpriseCustomer, platformName, supportUrl).value;
    if updated != context {
      assert CustomerGiven(enterpriseCustomer) && ErrorMessageKey in context && Truthy(context[ErrorMessageKey]);
    }
  }

  /** The third-party-auth context: a dictionary the update rewrites in place. */
  class AuthContext {
    var entries: map<string, Value>

    constructor (entries: map<string, Value>)
      ensures this.entries == entries
    {
      this.entries := entries;
    }
  }

  /**
   * update_third_party_auth_context_for_enterprise: rewrites
   * context['errorMessage'] in place and returns the same context; a
   * KeyError leaves the context as it was.
   */
  method UpdateThirdPartyAuthContextForEnterprise(context: AuthContext, enterpriseCustomer: Option<map<string, Value>>,
                                                  platformName: string, supportUrl: string)
    returns (result: Lookup<AuthContext>)
    modifies context
    ensures match UpdatedContext(old(context.entries), enterpriseCustomer, platformName, supportUrl)
            case Found(updated) => result == Found(context) && context.entries == updated
            case KeyError(key) => result == KeyError(key) && context.entries == old(context.entries)
  {
    if CustomerGiven(enterpriseCustomer) {
      if ErrorMessageKey !in context.entries {
        return KeyError(ErrorMessageKey);
      }
      if Truthy(context.entries[ErrorMessageKey]) {
        var customer := enterpriseCustomer.value;
        if NameKey !in customer {
          return KeyError(NameKey);
        }
        var message := EnterpriseErrorMessage(platformName, Render(customer[NameKey]), supportUrl,
                                              Render(context.entries[ErrorMessageKey]));
        context.entries := context.entries[ErrorMessageKey := Str(message)];
      }
    }
    return Found(context);
  }
}
