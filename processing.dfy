/** `DataProcessor::process` and `safe_unwrap` of rust/sample3.rs. */
module Processing {
  import opened Ints
  import opened Variants
  import opened Errors

  const EmptyData: string := "Empty data"

  /** `ProcessorConfig`; `process` never reads it. The `usize` width of
      `max_size` is not recorded. */
  datatype ProcessorConfig = ProcessorConfig(maxSize: nat, timeout: u64)

  datatype DataProcessor = DataProcessor(name: string, config: ProcessorConfig) {

    /** `process`: rejects empty data; otherwise labels it `"<name>: <data>"`,
        from which both the name and the data can be read back. */
    function Process(data: string): (r: AppResult<string>)
      ensures r.IsErr() <==> data == []
      ensures r.IsErr() ==> r.error == InvalidInput(EmptyData)
      ensures r.IsOk() ==> |r.value| == |name| + 2 + |data|
      ensures r.IsOk() ==> r.value[..|name|] == name && r.value[|name|..|name| + 2] == ": "
      ensures r.IsOk() ==> r.value[|name| + 2..] == data
    {
      if data == [] then Err(InvalidInput(EmptyData)) else Ok(name + ": " + data)
    }
  }

  /** `safe_unwrap`: the held value, or `default` when there is none. */
  function SafeUnwrap<T>(option: Option<T>, default: T): (v: T)
    ensures option.IsSome() ==> v == option.Unwrap()
    ensures option.IsNone() ==> v == default
  {
    match option
    case Some(x) => x
    case None => default
  }
}
