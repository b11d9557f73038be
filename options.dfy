/**
 * The options object a router is built from, as far as its middleware
 * factories update it in place: lib/validate-request/index.js:15-16 and
 * lib/validate.js:18 default missing validation options to `{}`.
 */
module RouterOptions {
  import opened JsValue

  class Options {
    var bodyAndQueryValidations: Value
    var routeParamValidations: Value
    var validations: Value

    constructor (bodyAndQueryValidations: Value, routeParamValidations: Value, validations: Value)
      ensures this.bodyAndQueryValidations == bodyAndQueryValidations
      ensures this.routeParamValidations == routeParamValidations
      ensures this.validations == validations
    {
      this.bodyAndQueryValidations := bodyAndQueryValidations;
      this.routeParamValidations := routeParamValidations;
      this.validations := validations;
    }
  }
}
