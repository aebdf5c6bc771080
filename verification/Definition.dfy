/**
 * The endpoint definition (PFMSDefinition). Its own source file,
 * pfms/swagger/pfms_definition.py, is not part of this model; the fields are
 * the attributes the converter reads and writes.
 */
module Definition {

  import opened Wrappers
  import opened Envelopes

  /** One position of a parameter tuple `(name, data_type, required)`. */
  datatype Value = Str(s: string) | Bool(b: bool) | Null

  /** An element of `query_param` / `path_params`: a Python tuple, or anything else. */
  datatype Entry = Tuple(items: seq<Value>) | NotATuple

  /** Every field of a definition at one moment, as handed to a builder that receives the definition. */
  datatype DefinitionView = DefinitionView(
    url: string,
    methods: seq<string>,
    rrType: string,
    requestBody: Option<Descriptor>,
    responseObj: Option<Descriptor>,
    queryParam: seq<Entry>,
    pathParams: seq<Entry>,
    tags: seq<string>,
    onlyMessage: bool,
    requestComponent: string,
    responseComponent: string,
    requestType: string)

  class PfmsDefinition {
    const url: string
    const methods: seq<string>
    const rrType: string
    const requestBody: Option<Descriptor>
    const responseObj: Option<Descriptor>
    const queryParam: seq<Entry>
    const pathParams: seq<Entry>
    const tags: seq<string>
    const onlyMessage: bool
    var requestComponent: string
    var responseComponent: string
    var requestType: string

    /** The component names start out unset, modelled as the empty string. */
    constructor (url: string, methods: seq<string>, rrType: string,
                 requestBody: Option<Descriptor>, responseObj: Option<Descriptor>,
                 queryParam: seq<Entry>, pathParams: seq<Entry>, tags: seq<string>,
                 onlyMessage: bool, requestType: string)
      ensures View() == DefinitionView(url, methods, rrType, requestBody, responseObj,
                                       queryParam, pathParams, tags, onlyMessage, "", "", requestType)
    {
      this.url := url;
      this.methods := methods;
      this.rrType := rrType;
      this.requestBody := requestBody;
      this.responseObj := responseObj;
      this.queryParam := queryParam;
      this.pathParams := pathParams;
      this.tags := tags;
      this.onlyMessage := onlyMessage;
      this.requestComponent := "";
      this.responseComponent := "";
      this.requestType := requestType;
    }

    function View(): DefinitionView
      reads this
    {
      DefinitionView(url, methods, rrType, requestBody, responseObj, queryParam, pathParams,
                     tags, onlyMessage, requestComponent, responseComponent, requestType)
    }
  }
}
