/// The engine and format enumerations shared by detection, the factory and
/// the API. `Ort` and `Onnx` exist as values, but no factory or API path
/// handles them, so the operations that match on these types require
/// them to be absent.
module Engines {

  datatype EngineType = Candle | Ort | Linfa

  datatype ModelFormat = SafeTensors | PyTorch | Onnx | Linfa

  /// The engine types the factory and the API have match arms for.
  predicate Handled(e: EngineType)
  {
    e != Ort
  }

  /// The formats the factory and the API have match arms for.
  predicate HandledFormat(f: ModelFormat)
  {
    f != Onnx
  }
}
