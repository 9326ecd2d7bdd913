TestResult.DisplayName,TestResult.Outcome,TestResult.Duration,TestResult.ResourceCount,RandomSeed
JsText.Trim (well-formedness),Failed,00:00:00.5799681,2020810,3
JsText.TrimEmptyIff (correctness),Passed,00:00:00.3030610,1193301,3
JsText.TrimPieces (correctness),Passed,00:00:00.2446040,865513,3
JsText.TrimStart (well-formedness),Passed,00:00:00.1303509,119852,3
JsText.AllWhitespace (well-formedness),Passed,00:00:00.1105773,11878,3
JsText.TrimEnd (well-formedness),Passed,00:00:00.0573353,134994,3
JsText.TrimIdempotent (correctness),Passed,00:00:00.0284700,41239,3
JsText.TrimPieces (well-formedness),Passed,00:00:00.0239050,48534,3
JsText.WhitespaceConcat (correctness),Passed,00:00:00.0232336,21057,3
JsText.Prefix (well-formedness),Passed,00:00:00.0102157,10489,3
