TestResult.DisplayName,TestResult.Outcome,TestResult.Duration,TestResult.ResourceCount,RandomSeed
Client.Controller.BeforeUpdate (correctness),Failed,00:00:01.8364759,2917813,0
Client.Controller.Tick (correctness),Passed,00:00:01.3029035,1835868,0
Client.Controller.SnapAndFlush (correctness),Passed,00:00:00.8954755,1971241,0
Client.Controller.BeforeUpdate (well-formedness),Passed,00:00:00.5465009,896141,0
Client.Controller.ReceiveFrame (correctness),Passed,00:00:00.5212813,803869,0
Client.Controller.Tick (well-formedness),Passed,00:00:00.5121312,747023,0
Client.Controller.Flush (correctness),Passed,00:00:00.4197073,673292,0
Client.Controller.Receive (correctness),Passed,00:00:00.3871347,496109,0
Client.Controller.ReceiveFrame (well-formedness),Passed,00:00:00.3298026,397221,0
Client.Controller.SnapAndFlush (well-formedness),Passed,00:00:00.3233759,461296,0
Client.Controller.Receive (well-formedness),Passed,00:00:00.3208106,394131,0
Client.Controller.FlushAcks (correctness),Passed,00:00:00.2884335,429263,0
Client.Controller.Flush (well-formedness),Passed,00:00:00.2866879,348323,0
Client.Controller._ctor (well-formedness),Passed,00:00:00.2643342,60075,0
Client.Controller.FlushAcks (well-formedness),Passed,00:00:00.2416416,347298,0
Client.Controller.Valid (well-formedness),Passed,00:00:00.2383676,30037,0
Client.Controller.Take (correctness),Passed,00:00:00.1911383,211044,0
Client.Controller.Join (correctness),Passed,00:00:00.1655804,204628,0
Client.Controller._ctor (correctness),Passed,00:00:00.1344055,88163,0
Client.Controller.AckEach (correctness),Passed,00:00:00.0987724,144772,0
Client.Controller.Take (well-formedness),Passed,00:00:00.0952517,125340,0
Client.Controller.AckEach (well-formedness),Passed,00:00:00.0680346,84337,0
Client.Controller.Stamp (correctness),Passed,00:00:00.0645377,101339,0
Client.Controller.Join (well-formedness),Passed,00:00:00.0458155,76518,0
Client.Controller.RecordInput (correctness),Passed,00:00:00.0363986,46518,0
Client.Controller.Stamp (well-formedness),Passed,00:00:00.0328528,49416,0
Client.Controller.RecordInput (well-formedness),Passed,00:00:00.0264154,29139,0
